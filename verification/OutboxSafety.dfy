/** What every run of the outbox keeps, whatever the interleaving of workers, crashes, recalls and sweeps. */
module OutboxSafety {
  import opened Common
  import opened OutboxModel

  // ---------------------------------------------------------------- the invariant of one row

  predicate Live(c: Claim, clock: int) {
    c.open && clock < c.until
  }

  /** The row is held under this very claim. */
  predicate Holds(r: Row, c: Claim) {
    r.state == Processing && r.token == Some(c.token) && r.leaseUntil == Some(c.until)
  }

  function Last(claims: seq<Claim>): Claim
    requires |claims| > 0
  {
    claims[|claims| - 1]
  }

  predicate ClaimsOk(e: Entry, clock: int, used: set<Token>) {
    && (forall i, j :: 0 <= i < j < |e.claims| ==> e.claims[i].token != e.claims[j].token)
    && (forall i :: 0 <= i < |e.claims| ==> e.claims[i].token in used && e.claims[i].at <= clock)
    && (forall i :: 0 <= i < |e.claims| && Live(e.claims[i], clock) ==>
          i == |e.claims| - 1 && (e.row.Some? ==> Holds(e.row.value, e.claims[i])))
  }

  /** A token on a row is its last claim's; only a canceled row can keep the token of a claim whose lease is over. */
  predicate TokenOk(r: Row, claims: seq<Claim>, clock: int) {
    && (r.token.Some? <==> r.leaseUntil.Some?)
    && (r.state == Processing ==> r.token.Some?)
    && (r.token.Some? ==>
          && |claims| > 0
          && r.token == Some(Last(claims).token)
          && r.leaseUntil == Some(Last(claims).until)
          && r.attempts == Last(claims).attempts
          && r.nextAttemptAt <= Last(claims).at
          && (r.state == Processing || (r.state == Canceled && Last(claims).until <= clock)))
  }

  predicate AttemptsOk(r: Row) {
    match r.state
    case Pending => r.attempts == 0
    case RetryWaiting => 1 <= r.attempts < MAX_ATTEMPTS
    case Processing => 0 <= r.attempts < MAX_ATTEMPTS
    case Canceled => 0 <= r.attempts < MAX_ATTEMPTS
    case Sent => 1 <= r.attempts <= MAX_ATTEMPTS
    case Failed => 1 <= r.attempts <= MAX_ATTEMPTS
  }

  predicate Spaced(failures: seq<int>) {
    forall k {:trigger failures[k]} :: 0 < k < |failures| ==> failures[k - 1] + Backoff(k) <= failures[k]
  }

  predicate FailuresOk(r: Row, failures: seq<int>) {
    && |failures| == r.attempts - (if r.state == Sent then 1 else 0)
    && (r.state != Sent && r.state != Failed && |failures| > 0 ==>
          failures[|failures| - 1] + Backoff(|failures|) <= r.nextAttemptAt)
  }

  predicate EntryOk(e: Entry, clock: int, used: set<Token>) {
    && ClaimsOk(e, clock, used)
    && Spaced(e.failures)
    && (e.row.Some? ==>
          TokenOk(e.row.value, e.claims, clock) && AttemptsOk(e.row.value) && FailuresOk(e.row.value, e.failures))
  }

  predicate WorldOk(w: World) {
    && (forall id :: id in w.entries ==> EntryOk(w.entries[id], w.clock, w.used) && id < w.nextId)
    && (forall i, j :: (i in w.entries && j in w.entries && HasRow(w, i) && HasRow(w, j)
          && RowOf(w, i).key == RowOf(w, j).key) ==> i == j)
    && (w.fenced ==> AllFenced(w.entries))
  }

  // ---------------------------------------------------------------- one row, one action

  lemma ClaimKeepsEntry(e: Entry, channel: Channel, token: Token, now: int, clock: int, used: set<Token>)
    requires EntryOk(e, clock, used) && EntryClaimable(e, channel, now) && now <= clock && token !in used
    ensures EntryOk(ClaimEntry(e, token, now, clock), clock, used + {token})
  {
    forall i | 0 <= i < |e.claims|
      ensures !Live(e.claims[i], clock)
    {
    }
  }

  /** Settling a claim keeps the history sound, as long as it changes the row only under the last claim. */
  lemma SettleKeepsClaims(e: Entry, k: nat, row: Option<Row>, failures: seq<int>, clock: int, used: set<Token>)
    requires ClaimsOk(e, clock, used) && k < |e.claims|
    requires row == e.row || k == |e.claims| - 1
    ensures ClaimsOk(Entry(row, e.claims[k := e.claims[k].(open := false)], failures), clock, used)
  {
  }

  lemma OnlyTheLastClaimHolds(e: Entry, k: nat, clock: int, used: set<Token>)
    requires ClaimsOk(e, clock, used) && e.row.Some? && TokenOk(e.row.value, e.claims, clock)
    requires k < |e.claims| && e.row.value.token == Some(e.claims[k].token)
    ensures k == |e.claims| - 1
  {
  }

  lemma SpacedAppends(failures: seq<int>, now: int)
    requires Spaced(failures)
    requires |failures| > 0 ==> failures[|failures| - 1] + Backoff(|failures|) <= now
    ensures Spaced(failures + [now])
  {
    hide Backoff;
  }

  lemma FinishKeepsEntry(e: Entry, k: nat, outcome: Outcome, now: int, clock: int, used: set<Token>)
    requires EntryOk(e, clock, used) && OwnsClaim(e, k, now, clock)
    ensures EntryOk(FinishEntry(e, k, outcome, now, clock), clock, used)
  {
    hide Backoff, ClaimsOk, Spaced;
    var after := FinishEntry(e, k, outcome, now, clock);
    if e.row.None? || !Fenced(e.row.value, e.claims[k].token) {
      SettleKeepsClaims(e, k, after.row, after.failures, clock, used);
    } else {
      OnlyTheLastClaimHolds(e, k, clock, used);
      SettleKeepsClaims(e, k, after.row, after.failures, clock, used);
      SpacedAppends(e.failures, now);
    }
  }

  lemma ReleaseKeepsEntry(e: Entry, k: nat, now: int, clock: int, used: set<Token>)
    requires EntryOk(e, clock, used) && OwnsClaim(e, k, now, clock)
    ensures EntryOk(ReleaseEntry(e, k, now, clock), clock, used)
  {
    hide Backoff, ClaimsOk, Spaced;
    var after := ReleaseEntry(e, k, now, clock);
    if e.row.None? || e.row.value.token != Some(e.claims[k].token) {
      SettleKeepsClaims(e, k, after.row, after.failures, clock, used);
    } else {
      OnlyTheLastClaimHolds(e, k, clock, used);
      SettleKeepsClaims(e, k, after.row, after.failures, clock, used);
    }
  }

  lemma IneligibleKeepsEntry(e: Entry, channel: Channel, now: int, clock: int, used: set<Token>)
    requires EntryOk(e, clock, used) && EntryClaimable(e, channel, now) && now <= clock
    ensures EntryOk(e.(row := Some(IneligibleRow(e.row.value, clock))), clock, used)
  {
  }

  lemma SweepKeepsEntry(e: Entry, source: string, now: int, clock: int, used: set<Token>)
    requires EntryOk(e, clock, used) && now <= clock
    ensures EntryOk(CancelEntry(e, source, clock), clock, used)
    ensures EntryOk(ExpireEntry(e, now, clock), clock, used)
    ensures EntryOk(e.(row := None), clock, used)
  {
    hide Backoff, Spaced;
    assert ClaimsOk(e.(row := None), clock, used);
    if e.row.Some? && CancelRow(e.row.value, source, clock) != e.row.value {
      assert ClaimsOk(CancelEntry(e, source, clock), clock, used);
    }
    if e.row.Some? && Expirable(e.row.value, now) {
      assert ClaimsOk(ExpireEntry(e, now, clock), clock, used);
    }
  }

  lemma MoreTokensKeepEntry(e: Entry, clock: int, used: set<Token>, more: set<Token>)
    requires EntryOk(e, clock, used)
    ensures EntryOk(e, clock, used + more)
  {
  }

  lemma StepKeepsEntry(id: int, e: Entry, a: Action, clock: int, used: set<Token>)
    requires EntryOk(e, clock, used) && EntryEnabled(id, e, a, clock) && Spent(a) !! used
    ensures EntryOk(EntryStep(id, e, a, clock), clock, used + Spent(a))
  {
    match a
    case ClaimEmail(now, i, token, allowed) =>
      MoreTokensKeepEntry(e, clock, used, Spent(a));
      if i == id && allowed {
        ClaimKeepsEntry(e, Email, token, now, clock, used);
      } else if i == id {
        IneligibleKeepsEntry(e, Email, now, clock, used + Spent(a));
      }
    case ClaimPush(now, picks, token, blocked) =>
      MoreTokensKeepEntry(e, clock, used, Spent(a));
      if id in picks {
        ClaimKeepsEntry(e, Push, token, now, clock, used);
        IneligibleKeepsEntry(e, Push, now, clock, used + Spent(a));
      }
    case _ =>
      assert used + Spent(a) == used;
      SettlingKeepsEntry(id, e, a, clock, used);
  }

  lemma SettlingKeepsEntry(id: int, e: Entry, a: Action, clock: int, used: set<Token>)
    requires EntryOk(e, clock, used) && EntryEnabled(id, e, a, clock) && !a.ClaimEmail? && !a.ClaimPush?
    ensures EntryOk(EntryStep(id, e, a, clock), clock, used)
  {
    hide EntryOk;
    match a
    case Finish(now, i, k, outcome) =>
      if i == id { FinishKeepsEntry(e, k, outcome, now, clock, used); }
    case Release(now, i, k) =>
      if i == id { ReleaseKeepsEntry(e, k, now, clock, used); }
    case Maintain(now, expire, purge) =>
      SweepKeepsEntry(e, "", now, clock, used);
      SweepKeepsEntry(ExpireEntry(e, now, clock), "", now, clock, used);
    case CancelPending(s) =>
      SweepKeepsEntry(e, s, clock, clock, used);
    case _ =>
      SweepKeepsEntry(e, "", clock, clock, used);
  }

  lemma TimeKeepsEntry(e: Entry, clock: int, later: int, used: set<Token>)
    requires EntryOk(e, clock, used) && clock <= later
    ensures EntryOk(e, later, used)
  {
  }

  // ---------------------------------------------------------------- the whole table

  lemma StepKeepsKey(id: int, e: Entry, a: Action, clock: int)
    requires EntryEnabled(id, e, a, clock) && EntryStep(id, e, a, clock).row.Some?
    ensures e.row.Some?
    ensures EntryStep(id, e, a, clock).row.value.key == e.row.value.key
    ensures EntryStep(id, e, a, clock).row.value.source == e.row.value.source
    ensures EntryStep(id, e, a, clock).row.value.channel == e.row.value.channel
    ensures EntryStep(id, e, a, clock).row.value.device == e.row.value.device
    ensures EntryStep(id, e, a, clock).row.value.user == e.row.value.user
  {
  }

  predicate FreshRow(r: Row) {
    r.state == Pending && r.attempts == 0 && r.token.None? && r.leaseUntil.None?
  }

  lemma FreshEntryOk(r: Row, clock: int, used: set<Token>)
    requires FreshRow(r)
    ensures EntryOk(Entry(Some(r), [], []), clock, used) && Fence(r)
  {
  }

  lemma InsertKeepsWorld(w: World, r: Row)
    requires WorldOk(w) && FreshRow(r)
    ensures WorldOk(Insert(w, r))
  {
    hide EntryOk, Fence, FreshRow;
    FreshEntryOk(r, w.clock, w.used);
    if !KeyTaken(w, r.key) {
      var w' := Insert(w, r);
      forall id | id in w'.entries
        ensures EntryOk(w'.entries[id], w'.clock, w'.used) && id < w'.nextId
      {
      }
      forall i, j | i in w'.entries && j in w'.entries && HasRow(w', i) && HasRow(w', j)
                    && RowOf(w', i).key == RowOf(w', j).key
        ensures i == j
      {
        assert i != w.nextId ==> HasRow(w, i) && RowOf(w, i) == RowOf(w', i);
        assert j != w.nextId ==> HasRow(w, j) && RowOf(w, j) == RowOf(w', j);
      }
    }
  }

  lemma {:induction false} InsertAllKeepsWorld(w: World, rows: seq<Row>)
    requires WorldOk(w) && forall r :: r in rows ==> FreshRow(r)
    ensures WorldOk(InsertAll(w, rows))
    decreases |rows|
  {
    if rows != [] {
      InsertKeepsWorld(w, rows[0]);
      InsertAllKeepsWorld(Insert(w, rows[0]), rows[1..]);
    }
  }

  /** What the row updates of an action leave, before its inserts and the passage of time. */
  function Updated(w: World, a: Action): World
    requires Enabled(w, a)
  {
    w.(entries := Update(w, a), used := w.used + Spent(a))
  }

  lemma UpdateKeepsWorld(w: World, a: Action)
    requires WorldOk(w) && Enabled(w, a) && !Aborts(w, a)
    ensures WorldOk(Updated(w, a))
  {
    hide EntryOk, EntryStep, EntryEnabled;
    var w' := Updated(w, a);
    forall id | id in w'.entries
      ensures EntryOk(w'.entries[id], w'.clock, w'.used) && id < w'.nextId
    {
      StepKeepsEntry(id, w.entries[id], a, w.clock, w.used);
    }
    forall i, j | i in w'.entries && j in w'.entries && HasRow(w', i) && HasRow(w', j)
                  && RowOf(w', i).key == RowOf(w', j).key
      ensures i == j
    {
      StepKeepsKey(i, w.entries[i], a, w.clock);
      StepKeepsKey(j, w.entries[j], a, w.clock);
      assert HasRow(w, i) && HasRow(w, j);
    }
  }

  lemma TimeKeepsWorld(w: World, later: int)
    requires WorldOk(w) && w.clock <= later
    ensures WorldOk(w.(clock := later))
  {
    hide EntryOk;
    forall id | id in w.entries
      ensures EntryOk(w.entries[id], later, w.used)
    {
      TimeKeepsEntry(w.entries[id], w.clock, later, w.used);
    }
  }

  lemma StepKeepsWorld(w: World, a: Action)
    requires WorldOk(w)
    ensures WorldOk(Step(w, a))
  {
    hide EntryOk, EntryStep, EntryEnabled;
    if Enabled(w, a) && !Aborts(w, a) {
      UpdateKeepsWorld(w, a);
      match a
      case Tick(elapsed) =>
        TimeKeepsWorld(Updated(w, a), w.clock + elapsed);
      case Enqueue(now, drafts) => InsertAllKeepsWorld(Updated(w, a), Drafts(drafts, now, w.clock));
      case QueueRevokes(now, targets) => InsertAllKeepsWorld(Updated(w, a), RevokeRows(targets, now, w.clock));
      case _ =>
    }
  }

  /** The invariant holds after every run, from any world that meets it; the empty table does. */
  lemma {:induction false} RunKeepsWorld(w: World, actions: seq<Action>)
    requires WorldOk(w)
    ensures WorldOk(Run(w, actions))
    decreases |actions|
  {
    if actions != [] {
      StepKeepsWorld(w, actions[0]);
      RunKeepsWorld(Step(w, actions[0]), actions[1..]);
    }
  }
}
