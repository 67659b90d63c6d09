/**
 The durable notification outbox as a state machine.

 A world is the `notification_deliveries` table plus a clock. Every SQL transaction of the service
 is one action, executed atomically. A row carries its history beside it: the claims workers made on
 it and the failures recorded for it. Time is counted in microseconds. Each action names the moment
 `now` at which its worker read the clock, which may be earlier than the moment it takes effect.
 */
module OutboxModel {
  import opened Common

  const SECOND := 1_000_000
  const LEASE := 600 * SECOND
  const MAX_ATTEMPTS := 8
  const RETRY_MAX_SECONDS := 3600
  const TERMINAL_RETENTION := 30 * 86400 * SECOND
  const REVOKE_LIFETIME := 3 * 86400 * SECOND

  type Token = nat

  datatype State = Pending | Processing | RetryWaiting | Sent | Canceled | Failed

  datatype Channel = Email | Push

  /** `dedupe_key`: a message copy, or the revocation of the delivered row it names. */
  datatype Key = Copy(text: string) | Revoke(delivery: int)

  datatype Row = Row(
    user: int, channel: Channel, device: Option<int>, key: Key, source: Option<string>,
    state: State, attempts: int, nextAttemptAt: int, expiresAt: int,
    token: Option<Token>, leaseUntil: Option<int>, updatedAt: int)

  /** One claim of a row: the worker's own copy of the attempt count, and whether it has settled. */
  datatype Claim = Claim(token: Token, attempts: int, at: int, until: int, open: bool)

  /** A row, absent once deleted, with the history of its claims and recorded failures. */
  datatype Entry = Entry(row: Option<Row>, claims: seq<Claim>, failures: seq<int>)

  /** `fenced` says whether the table's processing-fence CHECK constraint is installed. */
  datatype World = World(
    entries: map<int, Entry>, nextId: int, used: set<Token>, clock: int, fenced: bool)

  /** What a message enqueue writes. */
  datatype Draft = Draft(
    user: int, channel: Channel, device: Option<int>, key: string, source: Option<string>, expiresAt: int)

  /** What a recall reads of a push it will revoke. */
  datatype Target = Target(id: int, user: int, device: Option<int>)

  datatype Outcome = Delivered | Undelivered(retryable: bool)

  datatype Action =
    | Tick(elapsed: nat)
    | Enqueue(now: int, drafts: seq<Draft>)
    | CancelPending(canceledSource: string)
    | QueueRevokes(now: int, targets: seq<Target>)
    | Maintain(now: int, expire: set<int>, purge: set<int>)
    | DropDevice(device: int)
    | DropUser(user: int)
    | ClaimEmail(now: int, id: int, token: Token, allowed: bool)
    | ClaimPush(now: int, picks: seq<int>, token: Token, blocked: set<int>)
    | Finish(now: int, id: int, claim: nat, outcome: Outcome)
    | Release(now: int, id: int, claim: nat)

  // ---------------------------------------------------------------- rows

  predicate Waiting(s: State) {
    s == Pending || s == RetryWaiting
  }

  predicate Terminal(s: State) {
    s == Sent || s == Canceled || s == Failed
  }

  /** The CHECK constraint `ck_notification_delivery_processing_fence`. */
  predicate Fence(r: Row) {
    if r.state == Processing then r.token.Some? && r.leaseUntil.Some?
    else r.token.None? && r.leaseUntil.None?
  }

  function Backoff(attempts: int): int {
    Min(60 * Pow2(Max(attempts - 1, 0)), RETRY_MAX_SECONDS) * SECOND
  }

  predicate LeaseOver(r: Row, now: int) {
    r.state == Processing && r.leaseUntil.Some? && r.leaseUntil.value <= now
  }

  predicate Claimable(r: Row, channel: Channel, now: int) {
    r.channel == channel && (Waiting(r.state) || LeaseOver(r, now)) && r.nextAttemptAt <= now < r.expiresAt
  }

  predicate Expirable(r: Row, now: int) {
    (Waiting(r.state) || LeaseOver(r, now)) && r.expiresAt <= now
  }

  predicate Purgeable(r: Row, now: int) {
    Terminal(r.state) && r.updatedAt < now - TERMINAL_RETENTION
  }

  function CancelRow(r: Row, source: string, clock: int): Row {
    if r.source == Some(source) && Waiting(r.state) then r.(state := Canceled, updatedAt := clock) else r
  }

  function ExpireRow(r: Row, now: int, clock: int): Row {
    if Expirable(r, now) then r.(state := Canceled, token := None, leaseUntil := None, updatedAt := clock) else r
  }

  function ClaimRow(r: Row, token: Token, now: int, clock: int): Row {
    r.(state := Processing, token := Some(token), leaseUntil := Some(now + LEASE), updatedAt := clock)
  }

  /** The ineligible branch sets the state alone: the token and lease of an old claim stay. */
  function IneligibleRow(r: Row, clock: int): Row {
    r.(state := Canceled, updatedAt := clock)
  }

  predicate Fenced(r: Row, token: Token) {
    r.state == Processing && r.token == Some(token)
  }

  function FinishRow(r: Row, token: Token, attempts: int, outcome: Outcome, now: int, clock: int): Row {
    if !Fenced(r, token) then r
    else
      var settled := r.(attempts := attempts + 1, token := None, leaseUntil := None, updatedAt := clock);
      match outcome
      case Delivered => settled.(state := Sent)
      case Undelivered(retryable) =>
        settled.(state := if retryable && attempts + 1 < MAX_ATTEMPTS then RetryWaiting else Failed,
                 nextAttemptAt := now + Backoff(attempts + 1))
  }

  /** The rate-deferred release: guarded by the token alone, not by the state. */
  function ReleaseRow(r: Row, token: Token, attempts: int, now: int, clock: int): Row {
    if r.token != Some(token) then r
    else r.(state := if attempts == 0 then Pending else RetryWaiting,
            nextAttemptAt := now, token := None, leaseUntil := None, updatedAt := clock)
  }

  // ---------------------------------------------------------------- entries

  function ClaimEntry(e: Entry, token: Token, now: int, clock: int): Entry
    requires e.row.Some?
  {
    var r := e.row.value;
    e.(row := Some(ClaimRow(r, token, now, clock)),
       claims := e.claims + [Claim(token, r.attempts, clock, now + LEASE, true)])
  }

  function FinishEntry(e: Entry, k: nat, outcome: Outcome, now: int, clock: int): Entry
    requires k < |e.claims|
  {
    var c := e.claims[k];
    var settled := e.(claims := e.claims[k := c.(open := false)]);
    match e.row
    case None => settled
    case Some(r) =>
      settled.(row := Some(FinishRow(r, c.token, c.attempts, outcome, now, clock)),
               failures := if Fenced(r, c.token) && outcome.Undelivered? then e.failures + [now] else e.failures)
  }

  function ReleaseEntry(e: Entry, k: nat, now: int, clock: int): Entry
    requires k < |e.claims|
  {
    var c := e.claims[k];
    var settled := e.(claims := e.claims[k := c.(open := false)]);
    match e.row
    case None => settled
    case Some(r) => settled.(row := Some(ReleaseRow(r, c.token, c.attempts, now, clock)))
  }

  /** A worker settles a claim of its own, at a time it read after claiming. */
  predicate OwnsClaim(e: Entry, k: nat, now: int, clock: int) {
    k < |e.claims| && e.claims[k].open && e.claims[k].at <= now <= clock
  }

  predicate EntryClaimable(e: Entry, channel: Channel, now: int) {
    e.row.Some? && Claimable(e.row.value, channel, now)
  }

  /** Whether `a`, as far as it touches this entry, meets the source's own guards. */
  predicate EntryEnabled(id: int, e: Entry, a: Action, clock: int) {
    match a
    case ClaimEmail(now, i, _, _) => now <= clock && (i == id ==> EntryClaimable(e, Email, now))
    case ClaimPush(now, picks, _, _) => now <= clock && (id in picks ==> EntryClaimable(e, Push, now))
    case Finish(now, i, k, _) => i == id ==> OwnsClaim(e, k, now, clock)
    case Release(now, i, k) => i == id ==> OwnsClaim(e, k, now, clock)
    case Maintain(now, _, _) => now <= clock
    case _ => true
  }

  /** The effect of `a` on one row, before the constraint is checked. */
  function EntryStep(id: int, e: Entry, a: Action, clock: int): Entry
    requires EntryEnabled(id, e, a, clock)
  {
    match a
    case CancelPending(s) => CancelEntry(e, s, clock)
    case Maintain(now, expire, purge) =>
      var swept := if id in expire then ExpireEntry(e, now, clock) else e;
      if id in purge && swept.row.Some? && Purgeable(swept.row.value, now) then swept.(row := None) else swept
    case DropDevice(d) => if e.row.Some? && e.row.value.device == Some(d) then e.(row := None) else e
    case DropUser(u) => if e.row.Some? && e.row.value.user == u then e.(row := None) else e
    case ClaimEmail(now, i, token, allowed) =>
      if i != id then e
      else if allowed then ClaimEntry(e, token, now, clock)
      else e.(row := Some(IneligibleRow(e.row.value, clock)))
    case ClaimPush(now, picks, token, blocked) =>
      if id !in picks then e
      else if id in blocked && !e.row.value.key.Revoke? then e.(row := Some(IneligibleRow(e.row.value, clock)))
      else ClaimEntry(e, token, now, clock)
    case Finish(now, i, k, outcome) => if i == id then FinishEntry(e, k, outcome, now, clock) else e
    case Release(now, i, k) => if i == id then ReleaseEntry(e, k, now, clock) else e
    case _ => e
  }

  function CancelEntry(e: Entry, source: string, clock: int): Entry {
    if e.row.Some? then e.(row := Some(CancelRow(e.row.value, source, clock))) else e
  }

  function ExpireEntry(e: Entry, now: int, clock: int): Entry {
    if e.row.Some? then e.(row := Some(ExpireRow(e.row.value, now, clock))) else e
  }

  // ---------------------------------------------------------------- inserts

  predicate HasRow(w: World, id: int) {
    id in w.entries && w.entries[id].row.Some?
  }

  function RowOf(w: World, id: int): Row
    requires HasRow(w, id)
  {
    w.entries[id].row.value
  }

  predicate KeyTaken(w: World, key: Key) {
    exists id :: id in w.entries && HasRow(w, id) && RowOf(w, id).key == key
  }

  /** `INSERT ... ON CONFLICT DO NOTHING` on the unique dedupe key. */
  function Insert(w: World, r: Row): World {
    if KeyTaken(w, r.key) then w
    else w.(entries := w.entries[w.nextId := Entry(Some(r), [], [])], nextId := w.nextId + 1)
  }

  function InsertAll(w: World, rows: seq<Row>): World
    decreases |rows|
  {
    if rows == [] then w else InsertAll(Insert(w, rows[0]), rows[1..])
  }

  function MessageRow(d: Draft, now: int, clock: int): Row {
    Row(d.user, d.channel, d.device, Copy(d.key), d.source, Pending, 0, now, d.expiresAt, None, None, clock)
  }

  function RevokeRow(t: Target, now: int, clock: int): Row {
    Row(t.user, Push, t.device, Revoke(t.id), None, Pending, 0, now, now + REVOKE_LIFETIME, None, None, clock)
  }

  /** The target was read from a row of the table, which may be gone by now. */
  predicate Names(w: World, t: Target) {
    t.id in w.entries && (HasRow(w, t.id) ==> RowOf(w, t.id).user == t.user && RowOf(w, t.id).device == t.device)
  }

  /** The rows a recall revokes: pushes of the source that are sent or being sent. */
  predicate Revocable(w: World, id: int, source: string) {
    HasRow(w, id) && RowOf(w, id).source == Some(source) && RowOf(w, id).channel == Push
    && (RowOf(w, id).state == Sent || RowOf(w, id).state == Processing)
  }

  // ---------------------------------------------------------------- the world

  predicate Enabled(w: World, a: Action) {
    && (forall id :: id in w.entries ==> EntryEnabled(id, w.entries[id], a, w.clock))
    && match a
       case Enqueue(now, _) => now <= w.clock
       case QueueRevokes(now, targets) => now <= w.clock && forall t :: t in targets ==> Names(w, t)
       case ClaimEmail(_, id, token, _) => id in w.entries && token !in w.used
       case ClaimPush(_, picks, token, _) => (forall id :: id in picks ==> id in w.entries) && token !in w.used
       case Finish(_, id, _, _) => id in w.entries
       case Release(_, id, _) => id in w.entries
       case _ => true
  }

  predicate AllFenced(entries: map<int, Entry>) {
    forall id :: id in entries && entries[id].row.Some? ==> Fence(entries[id].row.value)
  }

  function Update(w: World, a: Action): map<int, Entry>
    requires Enabled(w, a)
  {
    map id | id in w.entries :: EntryStep(id, w.entries[id], a, w.clock)
  }

  function Spent(a: Action): set<Token> {
    match a
    case ClaimEmail(_, _, token, _) => {token}
    case ClaimPush(_, _, token, _) => {token}
    case _ => {}
  }

  function RevokeRows(targets: seq<Target>, now: int, clock: int): (rows: seq<Row>)
    ensures |rows| == |targets|
    ensures forall i :: 0 <= i < |rows| ==> rows[i] == RevokeRow(targets[i], now, clock)
  {
    if targets == [] then [] else [RevokeRow(targets[0], now, clock)] + RevokeRows(targets[1..], now, clock)
  }

  function Drafts(drafts: seq<Draft>, now: int, clock: int): (rows: seq<Row>)
    ensures |rows| == |drafts|
    ensures forall i :: 0 <= i < |rows| ==> rows[i] == MessageRow(drafts[i], now, clock)
  {
    if drafts == [] then [] else [MessageRow(drafts[0], now, clock)] + Drafts(drafts[1..], now, clock)
  }

  /** The transaction of `a` violates the constraint, so the database rolls all of it back. */
  predicate Aborts(w: World, a: Action) {
    Enabled(w, a) && w.fenced && !AllFenced(Update(w, a))
  }

  /** One transaction. An action whose guards do not hold is never executed, and changes nothing. */
  function Step(w: World, a: Action): World {
    if !Enabled(w, a) || Aborts(w, a) then w
    else
      var updated := w.(entries := Update(w, a), used := w.used + Spent(a));
      match a
      case Tick(elapsed) => updated.(clock := w.clock + elapsed)
      case Enqueue(now, drafts) => InsertAll(updated, Drafts(drafts, now, w.clock))
      case QueueRevokes(now, targets) => InsertAll(updated, RevokeRows(targets, now, w.clock))
      case _ => updated
  }

  function Run(w: World, actions: seq<Action>): World
    decreases |actions|
  {
    if actions == [] then w else Run(Step(w, actions[0]), actions[1..])
  }

  function Empty(clock: int, fenced: bool): World {
    World(map[], 0, {}, clock, fenced)
  }
}
