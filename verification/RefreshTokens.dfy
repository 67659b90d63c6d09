/**
 The refresh tokens in Redis: one key per token digest, one index set per user, three atomic scripts.

 Time is in milliseconds; a key lives up to and including its expiry. `TTL` answers in whole seconds,
 rounded to the nearest, which is where the index can fall behind a token by up to half a second.
 */
module RefreshTokens {
  import opened Common
  import opened Text

  const SECOND := 1000
  const HALF_SECOND := 500

  type Digest = string

  datatype Stored = Stored(value: string, expiry: int)

  datatype Index = Index(members: set<Digest>, expiry: int)

  /** `issued` are the digests ever stored, `accepted` the digests consumed, in order. */
  datatype Redis = Redis(now: int, tokens: map<Digest, Stored>, sets: map<string, Index>, issued: set<Digest>, accepted: seq<Digest>)

  datatype Record = Record(user: int, version: int)

  datatype Action =
    | Tick(ms: nat)
    | Store(digest: Digest, user: int, version: int, ttl: int)
    | Consume(key: Digest)
    | RevokeAll(user: int)

  // ---------------------------------------------------------------- the stored record

  function Serialize(user: int, version: int): string {
    "v1" + [':'] + (Print(user) + [':'] + Print(version))
  }

  function Parse(value: string): Option<Record> {
    var parts := Split(value, ':');
    if |parts| != 3 || parts[0] != "v1" then None
    else if ParseInt(parts[1]).None? || ParseInt(parts[2]).None? then None
    else Some(Record(ParseInt(parts[1]).value, ParseInt(parts[2]).value))
  }

  /** What is printed is read back. */
  lemma RecordRoundTrip(user: int, version: int)
    ensures Parse(Serialize(user, version)) == Some(Record(user, version))
  {
    hide Print, ParseInt, Split;
    PrintHasNoColon(user);
    PrintHasNoColon(version);
    SplitField("v1", Print(user) + [':'] + Print(version), ':');
    SplitField(Print(user), Print(version), ':');
    SplitLast(Print(version), ':');
    ParsePrinted(user);
    ParsePrinted(version);
  }

  /** The record as it is stored. */
  lemma KnownRecord()
    ensures Serialize(42, 7) == "v1:42:7"
  {
    assert Print(42) == "42" && Print(7) == "7";
  }

  /** The index a user's tokens are listed in: distinct users have distinct keys. */
  lemma UserKeysApart(user: int, user': int)
    requires Print(user) == Print(user')
    ensures user == user'
  {
    hide Print, ParseInt;
    ParsePrinted(user);
    ParsePrinted(user');
  }

  function PlainDigits(s: string): bool {
    s != [] && AllDigits(s)
  }

  /** The two patterns of the consuming script: `^v1:(%d+):%d+$`, else `^(%d+)$`. */
  function IndexedUser(value: string): Option<string> {
    var parts := Split(value, ':');
    if |parts| == 3 && parts[0] == "v1" && PlainDigits(parts[1]) && PlainDigits(parts[2]) then Some(parts[1])
    else if PlainDigits(value) then Some(value)
    else None
  }

  /** A record's text: the version tag and two fields without a colon. */
  predicate IsRecord(value: string, user: string, version: string) {
    value == "v1:" + user + ":" + version && ':' !in user && ':' !in version
  }

  lemma FieldsIff(value: string, user: string, version: string)
    ensures Split(value, ':') == ["v1", user, version] <==> IsRecord(value, user, version)
  {
    hide Split;
    SplitInThreeIff(value, "v1", user, version, ':');
    assert "v1" + [':'] + (user + [':'] + version) == "v1:" + user + ":" + version;
  }

  /** Only a record of that version whose two fields are integers is read, and as those. */
  lemma ParseIff(value: string, record: Record)
    ensures Parse(value) == Some(record)
            <==> exists user, version :: IsRecord(value, user, version) && ParseInt(user) == Some(record.user)
                                         && ParseInt(version) == Some(record.version)
  {
    hide Split, ParseInt, IsRecord;
    if Parse(value) == Some(record) {
      var parts := Split(value, ':');
      assert parts == ["v1", parts[1], parts[2]];
      FieldsIff(value, parts[1], parts[2]);
    }
    if user, version :| IsRecord(value, user, version) && ParseInt(user) == Some(record.user)
                        && ParseInt(version) == Some(record.version) {
      FieldsIff(value, user, version);
    }
  }

  /** The script takes its user from a record with two plain numbers, or from a bare number. */
  lemma IndexedIff(value: string, user: string)
    ensures IndexedUser(value) == Some(user)
            <==> user != [] && AllDigits(user)
                 && (value == user || exists version :: IsRecord(value, user, version) && version != [] && AllDigits(version))
  {
    hide Split, IsRecord;
    var parts := Split(value, ':');
    if IndexedUser(value) == Some(user) && value != user {
      assert parts == ["v1", user, parts[2]];
      FieldsIff(value, user, parts[2]);
    }
    if AllDigits(value) {
      SplitLast(value, ':');
    }
    if version :| IsRecord(value, user, version) && version != [] && AllDigits(version) {
      FieldsIff(value, user, version);
    }
  }

  // ---------------------------------------------------------------- the scripts

  function LiveToken(r: Redis, d: Digest): Option<string> {
    if d in r.tokens && r.now <= r.tokens[d].expiry then Some(r.tokens[d].value) else None
  }

  predicate LiveSet(r: Redis, user: string) {
    user in r.sets && r.now <= r.sets[user].expiry
  }

  function Members(r: Redis, user: string): set<Digest> {
    if LiveSet(r, user) then r.sets[user].members else {}
  }

  /** Redis's `TTL`: to the nearest second. */
  function Ttl(r: Redis, expiry: int): int {
    (expiry - r.now + HALF_SECOND) / SECOND
  }

  function Step(r: Redis, a: Action): Redis {
    match a
    case Tick(ms) => r.(now := r.now + ms)
    case Store(d, user, version, ttl) =>
      if ttl <= 0 || d in r.issued then r
      else
        var until := r.now + ttl * SECOND;
        var key := Print(user);
        var expiry := if LiveSet(r, key) && Ttl(r, r.sets[key].expiry) >= ttl then r.sets[key].expiry else until;
        r.(tokens := r.tokens[d := Stored(Serialize(user, version), until)],
           sets := r.sets[key := Index(Members(r, key) + {d}, expiry)],
           issued := r.issued + {d})
    case Consume(d) =>
      var value := LiveToken(r, d);
      if value.None? then r
      else
        var user := IndexedUser(value.value);
        r.(tokens := r.tokens - {d}, accepted := r.accepted + [d],
           sets := if user.Some? then Unlisted(r, user.value, d) else r.sets)
    case RevokeAll(user) =>
      r.(tokens := r.tokens - Members(r, Print(user)), sets := r.sets - {Print(user)})
  }

  /** SREM; a set that runs empty is gone. */
  function Unlisted(r: Redis, user: string, d: Digest): map<string, Index> {
    if !LiveSet(r, user) then r.sets
    else if r.sets[user].members - {d} == {} then r.sets - {user}
    else r.sets[user := r.sets[user].(members := r.sets[user].members - {d})]
  }

  function Run(r: Redis, actions: seq<Action>): Redis
    decreases |actions|
  {
    if actions == [] then r else Run(Step(r, actions[0]), actions[1..])
  }

  function Empty(now: int): Redis {
    Redis(now, map[], map[], {}, [])
  }

  /** `get_refresh_token`, and what the two consuming methods hand back. */
  function Accepted(r: Redis, d: Digest): Option<Record> {
    if LiveToken(r, d).Some? then Parse(LiveToken(r, d).value) else None
  }

  // ---------------------------------------------------------------- the invariant

  /** A live token is listed in its user's live index, which outlives it but for `slack`; or it is about to expire. */
  predicate Listed(r: Redis, d: Digest, user: string, slack: int)
    requires d in r.tokens
  {
    || (d in Members(r, user) && r.tokens[d].expiry <= r.sets[user].expiry + slack)
    || r.tokens[d].expiry < r.now + slack
  }

  predicate TokenOk(r: Redis, d: Digest, slack: int)
    requires d in r.tokens
  {
    && d in r.issued && d !in r.accepted && Parse(r.tokens[d].value).Some?
    && (r.now <= r.tokens[d].expiry ==> Listed(r, d, Print(Parse(r.tokens[d].value).value.user), slack))
  }

  /** An index lists digests that were issued, and of those still stored only its own user's. */
  predicate IndexOk(r: Redis, user: string)
    requires user in r.sets
  {
    forall d :: d in r.sets[user].members ==>
      && d in r.issued
      && (d in r.tokens ==> Parse(r.tokens[d].value).Some? && Print(Parse(r.tokens[d].value).value.user) == user)
  }

  predicate RedisOk(r: Redis, slack: int) {
    && slack >= 0
    && (forall d :: d in r.tokens ==> TokenOk(r, d, slack))
    && (forall user :: user in r.sets ==> IndexOk(r, user))
    && (forall d :: d in r.accepted ==> d in r.issued)
    && (forall i, j :: 0 <= i < j < |r.accepted| ==> r.accepted[i] != r.accepted[j])
  }

  /** Stores happen on whole seconds, so that `TTL` rounds nothing. */
  predicate Aligned(r: Redis) {
    forall user :: user in r.sets ==> r.sets[user].expiry % SECOND == 0
  }

  lemma StoreKeeps(r: Redis, a: Action, slack: int)
    requires RedisOk(r, slack) && a.Store? && a.ttl > 0 && a.digest !in r.issued
    requires slack >= HALF_SECOND || (Aligned(r) && r.now % SECOND == 0)
    ensures RedisOk(Step(r, a), slack)
  {
    hide Print, Parse, Serialize;
    var r' := Step(r, a);
    RecordRoundTrip(a.user, a.version);
    forall d | d in r'.tokens
      ensures TokenOk(r', d, slack)
    {
      if d != a.digest {
        assert TokenOk(r, d, slack);
      }
    }
    forall user | user in r'.sets
      ensures IndexOk(r', user)
    {
      if user in r.sets {
        assert IndexOk(r, user);
      }
    }
  }

  lemma ConsumeKeeps(r: Redis, a: Action, slack: int)
    requires RedisOk(r, slack) && a.Consume?
    ensures RedisOk(Step(r, a), slack)
  {
    hide Print, Parse, Serialize, IndexedUser;
    var r' := Step(r, a);
    forall d | d in r'.tokens
      ensures TokenOk(r', d, slack)
    {
      assert TokenOk(r, d, slack);
    }
    forall user | user in r'.sets
      ensures IndexOk(r', user)
    {
      assert IndexOk(r, user);
    }
  }

  lemma RevokeKeeps(r: Redis, a: Action, slack: int)
    requires RedisOk(r, slack) && a.RevokeAll?
    ensures RedisOk(Step(r, a), slack)
  {
    hide Print, Parse, Serialize;
    var r' := Step(r, a);
    forall d | d in r'.tokens
      ensures TokenOk(r', d, slack)
    {
      assert TokenOk(r, d, slack);
    }
    forall user | user in r'.sets
      ensures IndexOk(r', user)
    {
      assert IndexOk(r, user);
    }
  }

  lemma TickKeeps(r: Redis, ms: nat, slack: int)
    requires RedisOk(r, slack)
    ensures RedisOk(Step(r, Tick(ms)), slack)
  {
    hide Print, Parse;
    var r' := Step(r, Tick(ms));
    forall d | d in r'.tokens
      ensures TokenOk(r', d, slack)
    {
      assert TokenOk(r, d, slack);
    }
    forall user | user in r'.sets
      ensures IndexOk(r', user)
    {
      assert IndexOk(r, user);
    }
  }

  lemma StepKeeps(r: Redis, a: Action, slack: int)
    requires RedisOk(r, slack) && (a.Store? ==> slack >= HALF_SECOND || (Aligned(r) && r.now % SECOND == 0))
    ensures RedisOk(Step(r, a), slack)
  {
    hide RedisOk;
    match a
    case Tick(ms) => TickKeeps(r, ms, slack);
    case Store(_, _, _, _) => if a.ttl > 0 && a.digest !in r.issued { StoreKeeps(r, a, slack); }
    case Consume(_) => ConsumeKeeps(r, a, slack);
    case RevokeAll(_) => RevokeKeeps(r, a, slack);
  }

  lemma {:induction false} RunKeeps(r: Redis, actions: seq<Action>)
    requires RedisOk(r, HALF_SECOND)
    ensures RedisOk(Run(r, actions), HALF_SECOND) && r.now <= Run(r, actions).now && r.issued <= Run(r, actions).issued
    decreases |actions|
  {
    hide RedisOk;
    if actions != [] {
      StepKeeps(r, actions[0], HALF_SECOND);
      RunKeeps(Step(r, actions[0]), actions[1..]);
    }
  }

  /** Every store of the run happens on a whole second. */
  predicate OnWholeSeconds(r: Redis, actions: seq<Action>)
    decreases |actions|
  {
    actions == [] || ((actions[0].Store? ==> r.now % SECOND == 0) && OnWholeSeconds(Step(r, actions[0]), actions[1..]))
  }

  lemma {:induction false} AlignedRunKeeps(r: Redis, actions: seq<Action>)
    requires RedisOk(r, 0) && Aligned(r) && OnWholeSeconds(r, actions)
    ensures RedisOk(Run(r, actions), 0)
    decreases |actions|
  {
    hide RedisOk;
    if actions != [] {
      StepKeeps(r, actions[0], 0);
      AlignedRunKeeps(Step(r, actions[0]), actions[1..]);
    }
  }

  /** A digest that was ever stored is not stored again: its token only stays as it is, or leaves. */
  lemma {:induction false} TokensOnlyLeave(r: Redis, actions: seq<Action>, d: Digest)
    requires d in r.issued && d in Run(r, actions).tokens
    ensures d in r.tokens && Run(r, actions).tokens[d] == r.tokens[d]
    decreases |actions|
  {
    if actions != [] {
      TokensOnlyLeave(Step(r, actions[0]), actions[1..], d);
    }
  }

  // ---------------------------------------------------------------- what the scripts promise

  /** What of a user's tokens outlives `RevokeAll`: at most those that were to expire within `slack`. */
  lemma SurvivorsExpireSoon(r: Redis, slack: int, user: int, after: seq<Action>, d: Digest)
    requires RedisOk(r, slack) && d in r.issued
    ensures var later := Run(Step(r, RevokeAll(user)), after);
            Accepted(later, d).Some? && Accepted(later, d).value.user == user ==> later.now < r.now + slack
  {
    hide Run, Print, Parse, Serialize;
    var revoked := Step(r, RevokeAll(user));
    NowAdvances(revoked, after);
    if d in Run(revoked, after).tokens {
      TokensOnlyLeave(revoked, after, d);
      assert TokenOk(r, d, slack);
    }
  }

  /** After `revoke_all_user_tokens` no earlier token of that user is accepted half a second later, or ever after. */
  lemma RevokeAllRevokes(start: int, before: seq<Action>, user: int, after: seq<Action>, d: Digest)
    requires d in Run(Empty(start), before).issued
    requires var r := Run(Empty(start), before);
             r.now + HALF_SECOND <= Run(Step(r, RevokeAll(user)), after).now
    ensures var later := Run(Step(Run(Empty(start), before), RevokeAll(user)), after);
            Accepted(later, d).Some? ==> Accepted(later, d).value.user != user
  {
    hide Run, Accepted, RedisOk;
    EmptyIsOk(start);
    RunKeeps(Empty(start), before);
    var r := Run(Empty(start), before);
    StepKeeps(r, RevokeAll(user), HALF_SECOND);
    var later := Run(Step(r, RevokeAll(user)), after);
    if Accepted(later, d).Some? && Accepted(later, d).value.user == user {
      SurvivorsExpireSoon(r, HALF_SECOND, user, after, d);
    }
  }

  /** If tokens are stored on whole seconds, none is accepted at all. */
  lemma RevokeAllRevokesAtOnce(start: int, before: seq<Action>, user: int, after: seq<Action>, d: Digest)
    requires OnWholeSeconds(Empty(start), before) && d in Run(Empty(start), before).issued
    ensures var later := Run(Step(Run(Empty(start), before), RevokeAll(user)), after);
            Accepted(later, d).Some? ==> Accepted(later, d).value.user != user
  {
    hide Run, Accepted, RedisOk;
    EmptyIsOk(start);
    RunKeeps(Empty(start), before);
    AlignedRunKeeps(Empty(start), before);
    var r := Run(Empty(start), before);
    StepKeeps(r, RevokeAll(user), HALF_SECOND);
    RunKeeps(Step(r, RevokeAll(user)), after);
    var later := Run(Step(r, RevokeAll(user)), after);
    if Accepted(later, d).Some? && Accepted(later, d).value.user == user {
      SurvivorsExpireSoon(r, 0, user, after, d);
    }
  }

  lemma EmptyIsOk(start: int)
    ensures RedisOk(Empty(start), HALF_SECOND) && RedisOk(Empty(start), 0) && Aligned(Empty(start))
  {
  }

  /** Other users' tokens are untouched. */
  lemma RevokeAllSparesOthers(start: int, before: seq<Action>, user: int, d: Digest)
    requires var r := Run(Empty(start), before); Accepted(r, d).Some? && Accepted(r, d).value.user != user
    ensures var r := Run(Empty(start), before); Accepted(Step(r, RevokeAll(user)), d) == Accepted(r, d)
  {
    hide Run, Print, Parse;
    EmptyIsOk(start);
    RunKeeps(Empty(start), before);
    var r := Run(Empty(start), before);
    if d in Members(r, Print(user)) {
      assert IndexOk(r, Print(user));
      UserKeysApart(user, Accepted(r, d).value.user);
    }
  }

  // ---------------------------------------------------------------- exactly when a revocation misses a token

  /** The index is live and ends before a token of this lifetime would, but by no more than `TTL` rounds up. */
  predicate FallsShort(r: Redis, user: int, ttl: int) {
    && LiveSet(r, Print(user))
    && ttl * SECOND - HALF_SECOND <= r.sets[Print(user)].expiry - r.now < ttl * SECOND
  }

  /** A store leaves the index ending before its new token exactly then. */
  lemma StoreFallsShortIff(r: Redis, d: Digest, user: int, version: int, ttl: int)
    requires ttl > 0 && d !in r.issued
    ensures var r' := Step(r, Store(d, user, version, ttl));
            && d in r'.tokens && Print(user) in r'.sets && d in r'.sets[Print(user)].members
            && (r'.sets[Print(user)].expiry < r'.tokens[d].expiry <==> FallsShort(r, user, ttl))
            && r'.tokens[d].expiry <= r'.sets[Print(user)].expiry + HALF_SECOND
            && (FallsShort(r, user, ttl) ==> r'.sets[Print(user)].expiry == r.sets[Print(user)].expiry)
            && r.now <= r'.sets[Print(user)].expiry
  {
    hide Print, Serialize;
  }

  /** A store that finds the user's index still live, and its rounded TTL below the new token's. */
  predicate Extends(r: Redis, a: Action, user: int, end: int) {
    a.Store? && a.user == user && a.ttl > 0 && a.digest !in r.issued && r.now <= end && Ttl(r, end) < a.ttl
  }

  /** Some store of the run extends the index before it ends. */
  predicate ExtendedInTime(r: Redis, actions: seq<Action>, user: int, end: int)
    decreases |actions|
  {
    actions != [] && (Extends(r, actions[0], user, end) || ExtendedInTime(Step(r, actions[0]), actions[1..], user, end))
  }

  lemma {:induction false} TooLateToExtend(r: Redis, actions: seq<Action>, user: int, end: int)
    requires end < r.now
    ensures !ExtendedInTime(r, actions, user, end)
    decreases |actions|
  {
    hide Print, Serialize, IndexedUser;
    if actions != [] {
      TooLateToExtend(Step(r, actions[0]), actions[1..], user, end);
    }
  }

  lemma {:induction false} NowAdvances(r: Redis, actions: seq<Action>)
    ensures r.now <= Run(r, actions).now
    decreases |actions|
  {
    hide Print, Serialize, IndexedUser;
    if actions != [] {
      NowAdvances(Step(r, actions[0]), actions[1..]);
    }
  }

  /** Listed in its user's index, which ends at `end`. */
  predicate ListedUntil(r: Redis, d: Digest, user: int, end: int) {
    && d in r.tokens && d in r.issued && Print(user) in r.sets
    && d in r.sets[Print(user)].members && r.sets[Print(user)].expiry == end
  }

  /** While the token is there and the index live, a step extends the index or leaves its end, and keeps the token listed. */
  lemma StepKeepsListed(r: Redis, a: Action, d: Digest, user: int, end: int)
    requires RedisOk(r, HALF_SECOND) && ListedUntil(r, d, user, end) && r.now <= end && d in Step(r, a).tokens
    ensures var later := Step(r, a);
            && Print(user) in later.sets && ListedUntil(later, d, user, later.sets[Print(user)].expiry)
            && (if Extends(r, a, user, end) then later.sets[Print(user)].expiry > end + HALF_SECOND
                else later.sets[Print(user)].expiry == end)
  {
    hide Parse, Serialize, IndexedUser, Print;
    if a.Store? && a.ttl > 0 && a.digest !in r.issued {
      if Print(a.user) == Print(user) {
        UserKeysApart(a.user, user);
      }
    } else if a.RevokeAll? {
      assert IndexOk(r, Print(user));
    } else if a.Consume? && LiveToken(r, a.key).Some? {
      ConsumeKeepsIndex(r, a.key, Print(user), d);
    }
  }

  lemma ConsumeKeepsIndex(r: Redis, key: Digest, name: string, d: Digest)
    requires LiveToken(r, key).Some? && d != key && name in r.sets && d in r.sets[name].members
    ensures name in Step(r, Consume(key)).sets
    ensures d in Step(r, Consume(key)).sets[name].members && Step(r, Consume(key)).sets[name].expiry == r.sets[name].expiry
  {
    hide IndexedUser;
  }

  /** A token that is there at the end was there all along, as it is. */
  lemma ThereBefore(r: Redis, actions: seq<Action>, d: Digest)
    requires actions != [] && d in r.tokens && d in r.issued && d in Run(r, actions).tokens
    ensures d in Step(r, actions[0]).tokens && Step(r, actions[0]).tokens[d] == r.tokens[d] == Run(r, actions).tokens[d]
  {
    hide Print, Serialize, IndexedUser;
    TokensOnlyLeave(Step(r, actions[0]), actions[1..], d);
    TokensOnlyLeave(r, actions, d);
  }

  /** An index that outlives its token lists it to the end. */
  lemma {:induction false} StaysListed(r: Redis, actions: seq<Action>, d: Digest, user: int, end: int)
    requires RedisOk(r, HALF_SECOND) && ListedUntil(r, d, user, end) && r.tokens[d].expiry <= end
    ensures d in Run(r, actions).tokens && Run(r, actions).now <= r.tokens[d].expiry ==> d in Members(Run(r, actions), Print(user))
    decreases |actions|
  {
    hide RedisOk, Step, Extends, Print;
    NowAdvances(r, actions);
    if actions != [] && d in Run(r, actions).tokens && Run(r, actions).now <= r.tokens[d].expiry {
      var later := Step(r, actions[0]);
      ThereBefore(r, actions, d);
      StepKeepsListed(r, actions[0], d, user, end);
      StepKeeps(r, actions[0], HALF_SECOND);
      StaysListed(later, actions[1..], d, user, later.sets[Print(user)].expiry);
    }
  }

  /** A token that its user's live index does not list is never listed again. */
  lemma {:induction false} NeverListedAgain(r: Redis, actions: seq<Action>, d: Digest, name: string)
    requires d in r.issued && d !in Members(r, name)
    ensures d !in Members(Run(r, actions), name)
    decreases |actions|
  {
    hide Print, Serialize, IndexedUser;
    if actions != [] {
      NeverListedAgain(Step(r, actions[0]), actions[1..], d, name);
    }
  }

  /** A token listed in an index that ends too early is lost to it exactly when the index ends without being extended. */
  lemma {:induction false} LostIff(r: Redis, actions: seq<Action>, d: Digest, user: int, end: int)
    requires RedisOk(r, HALF_SECOND) && ListedUntil(r, d, user, end) && r.now <= end
    requires end < r.tokens[d].expiry <= end + HALF_SECOND
    ensures d in Run(r, actions).tokens && Run(r, actions).now <= r.tokens[d].expiry ==>
              (d !in Members(Run(r, actions), Print(user))
               <==> !ExtendedInTime(r, actions, user, end) && end < Run(r, actions).now)
    decreases |actions|
  {
    hide RedisOk, Step, Extends, Print;
    if actions != [] && d in Run(r, actions).tokens && Run(r, actions).now <= r.tokens[d].expiry {
      var later := Step(r, actions[0]);
      ThereBefore(r, actions, d);
      StepKeepsListed(r, actions[0], d, user, end);
      StepKeeps(r, actions[0], HALF_SECOND);
      if Extends(r, actions[0], user, end) {
        StaysListed(later, actions[1..], d, user, later.sets[Print(user)].expiry);
      } else if later.now <= end {
        LostIff(later, actions[1..], d, user, end);
      } else {
        NeverListedAgain(later, actions[1..], d, Print(user));
        TooLateToExtend(later, actions[1..], user, end);
        NowAdvances(later, actions[1..]);
      }
    }
  }

  /**
   `revoke_all_user_tokens` misses a live token of the user if and only if its store fell short, no later
   store extended the index before it ended, and it has ended.
   */
  lemma RevokeAllMissesIff(
    start: int, before: seq<Action>, d: Digest, user: int, version: int, ttl: int, between: seq<Action>)
    requires ttl > 0
    ensures var r := Run(Empty(start), before);
            var stored := Step(r, Store(d, user, version, ttl));
            var last := Run(stored, between);
            d !in r.issued && LiveToken(last, d).Some? ==>
              (LiveToken(Step(last, RevokeAll(user)), d).Some?
               <==> && FallsShort(r, user, ttl)
                    && !ExtendedInTime(stored, between, user, r.sets[Print(user)].expiry)
                    && r.sets[Print(user)].expiry < last.now)
  {
    hide Run, RedisOk, Print, Serialize, Step, ExtendedInTime, FallsShort;
    EmptyIsOk(start);
    RunKeeps(Empty(start), before);
    var r := Run(Empty(start), before);
    var a := Store(d, user, version, ttl);
    var stored := Step(r, a);
    var last := Run(stored, between);
    if d !in r.issued && LiveToken(last, d).Some? {
      StepKeeps(r, a, HALF_SECOND);
      StoreFallsShortIff(r, d, user, version, ttl);
      StoreIsIssued(r, a);
      TokensOnlyLeave(stored, between, d);
      RevokeAllDeletes(last, user, d);
      var end := stored.sets[Print(user)].expiry;
      if FallsShort(r, user, ttl) {
        LostIff(stored, between, d, user, end);
      } else {
        StaysListed(stored, between, d, user, end);
      }
    }
  }

  lemma StoreIsIssued(r: Redis, a: Action)
    requires a.Store? && a.ttl > 0 && a.digest !in r.issued
    ensures a.digest in Step(r, a).issued && Step(r, a).now == r.now
  {
  }

  lemma RevokeAllDeletes(r: Redis, user: int, d: Digest)
    requires LiveToken(r, d).Some?
    ensures LiveToken(Step(r, RevokeAll(user)), d).Some? <==> d !in Members(r, Print(user))
  {
    hide Print;
  }

  lemma RunFour(r: Redis, a: seq<Action>)
    requires |a| == 4
    ensures Run(r, a) == Step(Step(Step(Step(r, a[0]), a[1]), a[2]), a[3])
  {
    hide Step;
    assert a[1..][1..] == a[2..] && a[2..][1..] == a[3..] && a[3..][1..] == [];
    assert Run(Step(Step(r, a[0]), a[1]), a[2..]) == Run(Step(Step(Step(r, a[0]), a[1]), a[2]), a[3..]);
    assert Run(Step(Step(Step(r, a[0]), a[1]), a[2]), a[3..]) == Step(Step(Step(Step(r, a[0]), a[1]), a[2]), a[3]);
  }

  /** A token is consumed at most once, and never accepted after that. */
  lemma ConsumedOnce(start: int, actions: seq<Action>, i: nat, j: nat)
    requires i < j < |Run(Empty(start), actions).accepted|
    ensures var r := Run(Empty(start), actions);
            r.accepted[i] != r.accepted[j] && Accepted(r, r.accepted[i]).None? && Accepted(r, r.accepted[j]).None?
  {
    hide Run, Parse, Print;
    EmptyIsOk(start);
    RunKeeps(Empty(start), actions);
  }

  /** The consuming script finds the index of the token it deletes, for every user and version that is not negative. */
  lemma IndexedUserIff(user: int, version: int)
    ensures IndexedUser(Serialize(user, version)) == if user >= 0 && version >= 0 then Some(Print(user)) else None
  {
    hide Split, Digits;
    PrintHasNoColon(user);
    PrintHasNoColon(version);
    SplitField("v1", Print(user) + [':'] + Print(version), ':');
    SplitField(Print(user), Print(version), ':');
    SplitLast(Print(version), ':');
    assert Print(user)[0] == '-' <==> user < 0;
    assert Print(version)[0] == '-' <==> version < 0;
    assert Serialize(user, version)[0] == 'v';
  }

  lemma ConsumeUnlists(r: Redis, d: Digest, user: int, version: int)
    requires LiveToken(r, d) == Some(Serialize(user, version)) && user >= 0 && version >= 0
    ensures d !in Members(Step(r, Consume(d)), Print(user))
    ensures forall other :: other != d && other in Members(r, Print(user)) ==> other in Members(Step(r, Consume(d)), Print(user))
  {
    hide Serialize, Print, Parse, IndexedUser;
    IndexedUserIff(user, version);
  }

  // ---------------------------------------------------------------- one script, key by key

  predicate Unexpired(expiry: int, now: int) {
    now <= expiry
  }

  /** A stored token lives for its lifetime; its user's index lists it besides what it listed, and ends no earlier but for the rounding. */
  lemma StoreIff(r: Redis, d: Digest, user: int, version: int, ttl: int)
    requires ttl > 0 && d !in r.issued
    ensures var r', key := Step(r, Store(d, user, version, ttl)), Print(user);
            && key in r'.sets
            && r' == r.(tokens := r.tokens[d := Stored(Serialize(user, version), r.now + 1000 * ttl)], issued := r.issued + {d},
                        sets := r.sets[key := r'.sets[key]])
            && (if key in r.sets && Unexpired(r.sets[key].expiry, r.now) then
                  && r'.sets[key].members == r.sets[key].members + {d}
                  && r'.sets[key].expiry == if r.sets[key].expiry - r.now + 500 >= 1000 * ttl then r.sets[key].expiry
                                            else r.now + 1000 * ttl
                else r'.sets[key] == Index({d}, r.now + 1000 * ttl))
  {
    hide Print, Serialize;
  }

  /** A consumed token is gone, and off the index it names if that is live; an index without a member is gone. */
  lemma ConsumeIff(r: Redis, d: Digest)
    ensures var r' := Step(r, Consume(d));
            if d !in r.tokens || r.now > r.tokens[d].expiry then r' == r
            else
              && r' == r.(tokens := r'.tokens, sets := r'.sets, accepted := r.accepted + [d])
              && r'.tokens == (map x | x in r.tokens && x != d :: r.tokens[x])
              && (forall key :: key in r.sets && !(IndexedUser(r.tokens[d].value) == Some(key) && Unexpired(r.sets[key].expiry, r.now)) ==>
                    key in r'.sets && r'.sets[key] == r.sets[key])
              && (forall key :: key in r'.sets ==> key in r.sets && r'.sets[key].expiry == r.sets[key].expiry)
              && (forall key :: key in r.sets && IndexedUser(r.tokens[d].value) == Some(key) && Unexpired(r.sets[key].expiry, r.now) ==>
                    if forall x :: x in r.sets[key].members ==> x == d then key !in r'.sets
                    else key in r'.sets && r'.sets[key].members == (set x | x in r.sets[key].members && x != d))
  {
    hide IndexedUser;
    if d in r.tokens && r.now <= r.tokens[d].expiry {
      var user := IndexedUser(r.tokens[d].value);
      if user.Some? && user.value in r.sets {
        var members := r.sets[user.value].members;
        assert members - {d} == set x | x in members && x != d;
        if x :| x in members && x != d {
          assert x in members - {d};
        }
      }
    }
  }

  /** Revoking all deletes exactly the tokens that the user's live index lists, and the index. */
  lemma RevokeAllIff(r: Redis, user: int, d: Digest, key: string)
    ensures var r', mine := Step(r, RevokeAll(user)), Print(user);
            && r' == r.(tokens := r'.tokens, sets := r'.sets)
            && (d in r'.tokens <==>
                  d in r.tokens && !(mine in r.sets && Unexpired(r.sets[mine].expiry, r.now) && d in r.sets[mine].members))
            && (d in r'.tokens ==> r'.tokens[d] == r.tokens[d])
            && (key in r'.sets <==> key in r.sets && key != mine)
            && (key in r'.sets ==> r'.sets[key] == r.sets[key])
  {
    hide Print;
  }

  /** Which does happen: the index set by an earlier token, whose TTL was rounded up, ends before a later token does. */
  lemma RevokeAllCanMiss()
    ensures exists before ::
              var r := Run(Empty(0), before);
              Accepted(Step(r, RevokeAll(1)), "b") == Some(Record(1, 1))
  {
    var before := [Store("a", 1, 1, 10), Tick(400), Store("b", 1, 1, 10), Tick(9_601)];
    hide Serialize, Parse, Run, Step, Print;
    var r1 := Step(Empty(0), before[0]);
    var r2 := Step(r1, before[1]);
    var r3 := Step(r2, before[2]);
    var r4 := Step(r3, before[3]);
    StoreIff(Empty(0), "a", 1, 1, 10);
    Passes(r1, 400);
    StoreIff(r2, "b", 1, 1, 10);
    Passes(r3, 9_601);
    assert r3.tokens["b"] == Stored(Serialize(1, 1), 10_400) && r3.sets[Print(1)].expiry == 10_000;
    RecordRoundTrip(1, 1);
    RunFour(Empty(0), before);
    RevokeAllIff(r4, 1, "b", "");
  }

  lemma Passes(r: Redis, ms: nat)
    ensures Step(r, Tick(ms)) == r.(now := r.now + ms)
  {
  }

  predicate SparesToken(a: Action, d: Digest, user: int) {
    a != Consume(d) && a != RevokeAll(user)
  }

  lemma {:induction false} SparedTokenStays(r: Redis, actions: seq<Action>, d: Digest, user: int)
    requires RedisOk(r, HALF_SECOND) && d in r.tokens && Parse(r.tokens[d].value).Some? && Parse(r.tokens[d].value).value.user == user
    requires forall a :: a in actions ==> SparesToken(a, d, user)
    ensures d in Run(r, actions).tokens && Run(r, actions).tokens[d] == r.tokens[d]
    decreases |actions|
  {
    hide Parse, Print, Serialize, IndexedUser;
    if actions != [] {
      assert actions[0] in actions && TokenOk(r, d, HALF_SECOND);
      StepKeeps(r, actions[0], HALF_SECOND);
      if actions[0].RevokeAll? && d in Members(r, Print(actions[0].user)) {
        ListedByItsUser(r, actions[0].user, d);
      }
      SparedTokenStays(Step(r, actions[0]), actions[1..], d, user);
    }
  }

  /** No other user's index lists a stored token. */
  lemma ListedByItsUser(r: Redis, user: int, d: Digest)
    requires RedisOk(r, HALF_SECOND) && d in r.tokens && d in Members(r, Print(user))
    ensures Parse(r.tokens[d].value).Some? && Parse(r.tokens[d].value).value.user == user
  {
    hide Parse, Print;
    assert IndexOk(r, Print(user));
    UserKeysApart(Parse(r.tokens[d].value).value.user, user);
  }

  /**
   A stored token is accepted, with the record it was stored with, up to the end of its lifetime and no longer, as
   long as nobody consumes it or revokes its user's tokens.
   */
  lemma AcceptedForItsLifetime(
    start: int, before: seq<Action>, d: Digest, user: int, version: int, ttl: int, after: seq<Action>)
    requires ttl > 0 && d !in Run(Empty(start), before).issued
    requires forall a :: a in after ==> SparesToken(a, d, user)
    ensures var r := Run(Empty(start), before);
            var last := Run(Step(r, Store(d, user, version, ttl)), after);
            Accepted(last, d) == if last.now <= r.now + 1000 * ttl then Some(Record(user, version)) else None
  {
    hide Run, RedisOk, Print, Serialize, Parse, Step;
    EmptyIsOk(start);
    RunKeeps(Empty(start), before);
    var r := Run(Empty(start), before);
    StepKeeps(r, Store(d, user, version, ttl), HALF_SECOND);
    StoreIff(r, d, user, version, ttl);
    RecordRoundTrip(user, version);
    SparedTokenStays(Step(r, Store(d, user, version, ttl)), after, d, user);
  }

  // ---------------------------------------------------------------- the repository

  class RedisAuthRepository {
    var now: int
    var tokens: map<Digest, Stored>
    var sets: map<string, Index>
    var issued: set<Digest>
    var accepted: seq<Digest>
    /** `_refresh_token_digest`. */
    const digest: string -> Digest

    function State(): Redis
      reads this
    {
      Redis(now, tokens, sets, issued, accepted)
    }

    ghost predicate Valid()
      reads this
    {
      RedisOk(State(), HALF_SECOND)
    }

    constructor (start: int, hash: string -> Digest)
      ensures Valid() && State() == Empty(start) && digest == hash
    {
      now, tokens, sets, issued, accepted := start, map[], map[], {}, [];
      digest := hash;
    }

    method StoreRefreshToken(token: string, user: int, version: int, ttl: int) returns (ok: bool)
      requires Valid() && digest(token) !in issued
      modifies this
      ensures Valid() && State() == Step(old(State()), Store(digest(token), user, version, ttl))
      ensures ok == (ttl > 0) && (ok ==> Accepted(State(), digest(token)) == Some(Record(user, version)))
    {
      hide RedisOk, Print, Parse, Serialize;
      StepKeeps(State(), Store(digest(token), user, version, ttl), HALF_SECOND);
      RecordRoundTrip(user, version);
      ok := ttl > 0;
      if ok {
        var d, key := digest(token), Print(user);
        tokens := tokens[d := Stored(Serialize(user, version), now + ttl * SECOND)];
        var current := if key in sets && now <= sets[key].expiry then sets[key] else Index({}, now - SECOND);
        var expiry := current.expiry;
        if (expiry - now + HALF_SECOND) / SECOND < ttl {
          expiry := now + ttl * SECOND;
        }
        sets := sets[key := Index(current.members + {d}, expiry)];
        issued := issued + {d};
      }
    }

    method GetRefreshToken(token: string) returns (record: Option<Record>)
      ensures record == Accepted(State(), digest(token))
    {
      var d := digest(token);
      if d !in tokens || now > tokens[d].expiry {
        return None;
      }
      record := Parse(tokens[d].value);
    }

    /** CONSUME_REFRESH_TOKEN_SCRIPT. */
    method ConsumeKey(key: Digest) returns (value: Option<string>)
      requires Valid()
      modifies this
      ensures Valid() && State() == Step(old(State()), Consume(key))
      ensures value == old(LiveToken(State(), key))
    {
      hide RedisOk, IndexedUser;
      StepKeeps(State(), Consume(key), HALF_SECOND);
      value := if key in tokens && now <= tokens[key].expiry then Some(tokens[key].value) else None;
      if value.None? {
        return;
      }
      tokens := tokens - {key};
      accepted := accepted + [key];
      var user := IndexedUser(value.value);
      if user.Some? && user.value in sets && now <= sets[user.value].expiry {
        var left := sets[user.value].members - {key};
        sets := if left == {} then sets - {user.value} else sets[user.value := sets[user.value].(members := left)];
      }
    }

    /** `get_and_revoke_refresh_token`: a legacy record is removed too, but never accepted. */
    method GetAndRevoke(token: string) returns (record: Option<Record>)
      requires Valid()
      modifies this
      ensures Valid() && record == old(Accepted(State(), digest(token)))
      ensures Accepted(State(), digest(token)).None?
      ensures old(LiveToken(State(), digest(token))).Some? ==> State() == Step(old(State()), Consume(digest(token)))
      ensures old(LiveToken(State(), digest(token))).None? ==> State() == Step(old(State()), Consume(token))
    {
      hide RedisOk, IndexedUser, Parse;
      var value := ConsumeKey(digest(token));
      if value.None? {
        var legacy := ConsumeKey(token);
        return None;
      }
      record := Parse(value.value);
    }

    /** REVOKE_ALL_REFRESH_TOKENS_SCRIPT. */
    method RevokeAllUserTokens(user: int) returns (count: nat)
      requires Valid()
      modifies this
      ensures Valid() && State() == Step(old(State()), RevokeAll(user)) && count == |old(Members(State(), Print(user)))|
    {
      hide RedisOk, Print;
      StepKeeps(State(), RevokeAll(user), HALF_SECOND);
      var key := Print(user);
      var members := if key in sets && now <= sets[key].expiry then sets[key].members else {};
      count := |members|;
      var rest := members;
      while exists m :: m in rest
        invariant rest <= members && State() == old(State()).(tokens := old(tokens) - (members - rest))
        decreases rest
      {
        var m :| m in rest;
        rest := rest - {m};
        tokens := tokens - {m};
        assert tokens == old(tokens) - (members - rest);
      }
      assert members - rest == members;
      sets := sets - {key};
    }
  }
}
