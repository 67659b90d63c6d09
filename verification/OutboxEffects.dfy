/** What each transaction of the outbox does to the rows, told by the rows alone, and how a message comes to its end. */
module OutboxEffects {
  import opened Common
  import opened OutboxModel
  import opened OutboxSafety
  import opened OutboxTheorems

  // ---------------------------------------------------------------- cancellations and sweeps

  /** `cancel_pending` changes exactly the rows of its source that wait, and of those the state and the time of change. */
  lemma CancelPendingIff(w: World, source: string, id: int)
    requires WorldOk(w) && HasRow(w, id)
    ensures HasRow(Step(w, CancelPending(source)), id)
    ensures var before, after := RowOf(w, id), RowOf(Step(w, CancelPending(source)), id);
            && (after != before <==>
                  before.source == Some(source) && (before.state == Pending || before.state == RetryWaiting))
            && (after != before ==> after == before.(state := Canceled, updatedAt := w.clock))
  {
    var a := CancelPending(source);
    OnlyClaimsAbort(w, a);
    StepAt(w, a, id);
  }

  /** A row that has outlived its message: nobody is sending it any more, and it has expired. */
  predicate Overdue(r: Row, now: int) {
    && r.expiresAt <= now
    && (r.state == Pending || r.state == RetryWaiting
        || (r.state == Processing && r.leaseUntil.Some? && r.leaseUntil.value <= now))
  }

  /** A row whose story ended more than thirty days ago. */
  predicate Forgotten(r: Row, now: int) {
    (r.state == Sent || r.state == Canceled || r.state == Failed) && now - r.updatedAt > 30 * 24 * 3600 * SECOND
  }

  /** The sweep cancels exactly the overdue rows of its batch, and deletes exactly the forgotten ones. */
  lemma SweepIff(w: World, now: int, expire: set<int>, purge: set<int>, id: int)
    requires WorldOk(w) && HasRow(w, id) && now <= w.clock
    ensures var before, w' := RowOf(w, id), Step(w, Maintain(now, expire, purge));
            && (HasRow(w', id) <==> !(id in purge && Forgotten(before, now)))
            && (HasRow(w', id) ==>
                  && (RowOf(w', id) != before <==> id in expire && Overdue(before, now))
                  && (RowOf(w', id) != before ==>
                        RowOf(w', id) == before.(state := Canceled, token := None, leaseUntil := None, updatedAt := w.clock)))
  {
    var a := Maintain(now, expire, purge);
    EntriesEnable(w, a);
    OnlyClaimsAbort(w, a);
    StepAt(w, a, id);
  }

  lemma EntriesEnable(w: World, a: Action)
    requires a.Maintain? || a.DropDevice? || a.DropUser?
    requires a.Maintain? ==> a.now <= w.clock
    ensures Enabled(w, a)
  {
  }

  /** Dropping a device or a user deletes exactly its rows. */
  lemma DropIff(w: World, a: Action, id: int)
    requires WorldOk(w) && HasRow(w, id) && (a.DropDevice? || a.DropUser?)
    ensures HasRow(Step(w, a), id) <==>
              if a.DropDevice? then RowOf(w, id).device != Some(a.device) else RowOf(w, id).user != a.user
    ensures HasRow(Step(w, a), id) ==> RowOf(Step(w, a), id) == RowOf(w, id)
  {
    EntriesEnable(w, a);
    OnlyClaimsAbort(w, a);
    StepAt(w, a, id);
  }

  // ---------------------------------------------------------------- claims

  /** It waits, or its sender's lease is over; its next attempt is due; and it has not expired. */
  predicate Due(r: Row, channel: Channel, now: int) {
    && r.channel == channel && r.nextAttemptAt <= now && r.expiresAt > now
    && (r.state == Pending || r.state == RetryWaiting
        || (r.state == Processing && r.leaseUntil.Some? && r.leaseUntil.value <= now))
  }

  /** The row a claim leaves, held for ten minutes. */
  predicate HeldFor(before: Row, after: Row, token: Token, now: int, clock: int) {
    after == before.(state := Processing, token := Some(token), leaseUntil := Some(now + 10 * 60 * SECOND), updatedAt := clock)
  }

  /** The claim beside it. */
  predicate Noted(before: Entry, after: Entry, token: Token, now: int, clock: int)
    requires before.row.Some?
  {
    && after.failures == before.failures
    && after.claims == before.claims + [Claim(token, before.row.value.attempts, clock, now + 10 * 60 * SECOND, true)]
  }

  /**
   An e-mail is claimed if and only if it is due and its user may be mailed; for another user it is canceled, or
   the transaction is rolled back when its last sender never settled it. No other row changes.
   */
  lemma ClaimEmailIff(w: World, a: Action)
    requires WorldOk(w) && a.ClaimEmail?
    ensures Enabled(w, a) <==>
              && a.id in w.entries && HasRow(w, a.id) && Due(RowOf(w, a.id), Email, a.now) && a.now <= w.clock && a.token !in w.used
    ensures Enabled(w, a) ==>
              var before, w' := RowOf(w, a.id), Step(w, a);
              && HasRow(w', a.id)
              && (if a.allowed then
                    && HeldFor(before, RowOf(w', a.id), a.token, a.now, w.clock)
                    && Noted(w.entries[a.id], w'.entries[a.id], a.token, a.now, w.clock)
                  else if w.fenced && before.state == Processing then w' == w
                  else w'.entries[a.id] == w.entries[a.id].(row := Some(before.(state := Canceled, updatedAt := w.clock))))
    ensures forall id :: id in w.entries && id != a.id ==> id in Step(w, a).entries && Step(w, a).entries[id] == w.entries[id]
  {
    hide EntryOk;
    if Enabled(w, a) {
      StepAt(w, a, a.id);
      if w.fenced {
        AbortsExactly(w, a);
        assert Ineligible(w, a, a.id) <==> !a.allowed;
      }
    }
  }

  /** A batch of pushes: every row of it is due; the whole batch is rolled back for one row that cannot be canceled. */
  lemma ClaimPushIff(w: World, a: Action, id: int)
    requires WorldOk(w) && a.ClaimPush? && Enabled(w, a) && HasRow(w, id)
    ensures id in a.picks ==> Due(RowOf(w, id), Push, a.now) && a.now <= w.clock
    ensures a.token !in w.used
    ensures Aborts(w, a) ==> Step(w, a) == w
    ensures !Aborts(w, a) ==>
              var before, w' := RowOf(w, id), Step(w, a);
              && HasRow(w', id)
              && (if id !in a.picks then w'.entries[id] == w.entries[id]
                  else if id in a.blocked && before.key.Copy? then
                    w'.entries[id] == w.entries[id].(row := Some(before.(state := Canceled, updatedAt := w.clock)))
                  else
                    && HeldFor(before, RowOf(w', id), a.token, a.now, w.clock)
                    && Noted(w.entries[id], w'.entries[id], a.token, a.now, w.clock))
  {
    hide EntryOk;
    StepAt(w, a, id);
    assert EntryEnabled(id, w.entries[id], a, w.clock);
  }

  // ---------------------------------------------------------------- settlements

  /** The row is being sent under the token of its claim number `k`. */
  predicate HeldBy(w: World, id: int, k: nat) {
    && HasRow(w, id) && k < |w.entries[id].claims|
    && RowOf(w, id).state == Processing && RowOf(w, id).token == Some(w.entries[id].claims[k].token)
  }

  /** What recording an outcome makes of a held row. */
  predicate Recorded(before: Row, after: Row, outcome: Outcome, now: int, clock: int) {
    && (after.state == Sent <==> outcome.Delivered?)
    && (after.state == RetryWaiting <==> outcome.Undelivered? && outcome.retryable && before.attempts + 1 < 8)
    && (after.state == Failed <==> outcome.Undelivered? && !(outcome.retryable && before.attempts + 1 < 8))
    && after == before.(state := after.state, attempts := before.attempts + 1, token := None, leaseUntil := None, updatedAt := clock,
                        nextAttemptAt := if outcome.Delivered? then before.nextAttemptAt
                                         else now + Backoff(before.attempts + 1))
  }

  /** A rate-deferred row is due again at once, and the attempt does not count. */
  predicate Deferred(before: Row, after: Row, now: int, clock: int) {
    && after.state == (if before.attempts == 0 then Pending else RetryWaiting)
    && after == before.(state := after.state, nextAttemptAt := now, token := None, leaseUntil := None, updatedAt := clock)
  }

  /** A worker settles its own open claim, once, by a clock it read after claiming. */
  lemma SettlesOnceIff(w: World, a: Action)
    requires WorldOk(w) && (a.Finish? || a.Release?)
    ensures Enabled(w, a) <==>
              && a.id in w.entries && a.claim < |w.entries[a.id].claims| && w.entries[a.id].claims[a.claim].open
              && w.entries[a.id].claims[a.claim].at <= a.now <= w.clock
    ensures Enabled(w, a) ==> !Enabled(Step(w, a), a)
  {
    hide EntryOk;
    if Enabled(w, a) {
      SettleIff(w, a);
    }
  }

  /** Settling closes the worker's claim; the row changes only under the fence. */
  lemma SettleIff(w: World, a: Action)
    requires WorldOk(w) && (a.Finish? || a.Release?) && Enabled(w, a)
    ensures a.id in w.entries && a.claim < |w.entries[a.id].claims| && a.id in Step(w, a).entries
    ensures var e, e' := w.entries[a.id], Step(w, a).entries[a.id];
            && e'.claims == e.claims[a.claim := e.claims[a.claim].(open := false)]
            && (HasRow(w, a.id) <==> HasRow(Step(w, a), a.id))
            && (HasRow(w, a.id) && a.Finish? ==>
                  if HeldBy(w, a.id, a.claim) then
                    && Recorded(RowOf(w, a.id), RowOf(Step(w, a), a.id), a.outcome, a.now, w.clock)
                    && e'.failures == if a.outcome.Delivered? then e.failures else e.failures + [a.now]
                  else e'.row == e.row && e'.failures == e.failures)
            && (HasRow(w, a.id) && a.Release? ==>
                  && e'.failures == e.failures
                  && if RowOf(w, a.id).token == Some(e.claims[a.claim].token)
                     then Deferred(RowOf(w, a.id), RowOf(Step(w, a), a.id), a.now, w.clock)
                     else e'.row == e.row)
    ensures forall id :: id in w.entries && id != a.id ==> id in Step(w, a).entries && Step(w, a).entries[id] == w.entries[id]
  {
    hide ClaimsOk, FailuresOk, Spaced, Backoff;
    assert EntryEnabled(a.id, w.entries[a.id], a, w.clock);
    OnlyClaimsAbort(w, a);
    StepAt(w, a, a.id);
    assert EntryOk(w.entries[a.id], w.clock, w.used);
    if HasRow(w, a.id) && RowOf(w, a.id).token == Some(w.entries[a.id].claims[a.claim].token) {
      OnlyTheLastClaimHolds(w.entries[a.id], a.claim, w.clock, w.used);
    }
  }

  // ---------------------------------------------------------------- inserts

  lemma {:induction false} InsertAllIff(w: World, rows: seq<Row>)
    requires forall id :: id in w.entries ==> id < w.nextId
    ensures var w' := InsertAll(w, rows);
            && (forall id :: id in w.entries ==> id in w'.entries && w'.entries[id] == w.entries[id])
            && (forall id :: id in w'.entries && id !in w.entries ==>
                  exists r :: r in rows && !KeyTaken(w, r.key) && w'.entries[id] == Entry(Some(r), [], []))
            && (forall r :: r in rows ==> KeyTaken(w', r.key))
    decreases |rows|
  {
    if rows != [] {
      var w1 := Insert(w, rows[0]);
      InsertKeepsEntries(w, rows[0]);
      InsertAllIff(w1, rows[1..]);
      var w' := InsertAll(w, rows);
      KeyIsTaken(w, rows[0]);
      KeysStay(w, w1);
      KeysStay(w1, w');
      assert rows == [rows[0]] + rows[1..];
      forall id | id in w'.entries && id !in w.entries
        ensures exists r :: r in rows && !KeyTaken(w, r.key) && w'.entries[id] == Entry(Some(r), [], [])
      {
        if id in w1.entries {
          assert rows[0] in rows && !KeyTaken(w, rows[0].key) && w'.entries[id] == Entry(Some(rows[0]), [], []);
        } else {
          var r :| r in rows[1..] && !KeyTaken(w1, r.key) && w'.entries[id] == Entry(Some(r), [], []);
          assert r in rows && !KeyTaken(w, r.key);
        }
      }
    }
  }

  lemma KeyIsTaken(w: World, r: Row)
    ensures KeyTaken(Insert(w, r), r.key)
  {
    if !KeyTaken(w, r.key) {
      assert HasRow(Insert(w, r), w.nextId) && RowOf(Insert(w, r), w.nextId).key == r.key;
    }
  }

  lemma KeysStay(w: World, w': World)
    requires forall id :: id in w.entries ==> id in w'.entries && w'.entries[id] == w.entries[id]
    ensures forall key :: KeyTaken(w, key) ==> KeyTaken(w', key)
  {
    forall key | KeyTaken(w, key)
      ensures KeyTaken(w', key)
    {
      var id :| id in w.entries && HasRow(w, id) && RowOf(w, id).key == key;
      assert HasRow(w', id) && RowOf(w', id).key == key;
    }
  }

  /** An enqueued message waits at once, under its own key, unless that key is taken; a taken key is left alone. */
  lemma EnqueueIff(w: World, now: int, drafts: seq<Draft>)
    requires WorldOk(w) && now <= w.clock
    ensures var w' := Step(w, Enqueue(now, drafts));
            && (forall id :: id in w.entries ==> id in w'.entries && w'.entries[id] == w.entries[id])
            && (forall id :: id in w'.entries && id !in w.entries ==>
                  exists d :: d in drafts && !KeyTaken(w, Copy(d.key))
                    && w'.entries[id] == Entry(Some(Row(d.user, d.channel, d.device, Copy(d.key), d.source, Pending, 0, now,
                                                        d.expiresAt, None, None, w.clock)), [], []))
            && (forall d :: d in drafts ==> KeyTaken(w', Copy(d.key)))
  {
    hide EntryOk;
    var a := Enqueue(now, drafts);
    OnlyClaimsAbort(w, a);
    assert Update(w, a) == w.entries && Updated(w, a) == w;
    var rows := Drafts(drafts, now, w.clock);
    var w' := InsertAll(w, rows);
    InsertAllIff(w, rows);
    forall id | id in w'.entries && id !in w.entries
      ensures exists d :: d in drafts && !KeyTaken(w, Copy(d.key)) && w'.entries[id] == Entry(Some(MessageRow(d, now, w.clock)), [], [])
    {
      var r :| r in rows && !KeyTaken(w, r.key) && w'.entries[id] == Entry(Some(r), [], []);
      var i :| 0 <= i < |rows| && rows[i] == r;
      assert drafts[i] in drafts && r == MessageRow(drafts[i], now, w.clock);
    }
    forall d | d in drafts
      ensures KeyTaken(w', Copy(d.key))
    {
      var i :| 0 <= i < |drafts| && drafts[i] == d;
      assert rows[i] in rows && rows[i].key == Copy(d.key);
    }
  }

  /** A queued revocation waits at once and for three days, for the user and the device of the push it names. */
  lemma QueueRevokesIff(w: World, now: int, targets: seq<Target>)
    requires WorldOk(w) && Enabled(w, QueueRevokes(now, targets))
    ensures var w' := Step(w, QueueRevokes(now, targets));
            && (forall id :: id in w.entries ==> id in w'.entries && w'.entries[id] == w.entries[id])
            && (forall id :: id in w'.entries && id !in w.entries ==>
                  exists t :: t in targets && !KeyTaken(w, Revoke(t.id))
                    && w'.entries[id] == Entry(Some(Row(t.user, Push, t.device, Revoke(t.id), None, Pending, 0, now,
                                                        now + 3 * 24 * 3600 * SECOND, None, None, w.clock)), [], []))
            && (forall t :: t in targets ==> KeyTaken(w', Revoke(t.id)))
  {
    hide EntryOk;
    var a := QueueRevokes(now, targets);
    OnlyClaimsAbort(w, a);
    assert Update(w, a) == w.entries && Updated(w, a) == w;
    var rows := RevokeRows(targets, now, w.clock);
    var w' := InsertAll(w, rows);
    InsertAllIff(w, rows);
    forall id | id in w'.entries && id !in w.entries
      ensures exists t :: t in targets && !KeyTaken(w, Revoke(t.id)) && w'.entries[id] == Entry(Some(RevokeRow(t, now, w.clock)), [], [])
    {
      var r :| r in rows && !KeyTaken(w, r.key) && w'.entries[id] == Entry(Some(r), [], []);
      var i :| 0 <= i < |rows| && rows[i] == r;
      assert targets[i] in targets && r == RevokeRow(targets[i], now, w.clock);
    }
    forall t | t in targets
      ensures KeyTaken(w', Revoke(t.id))
    {
      var i :| 0 <= i < |targets| && targets[i] == t;
      assert rows[i] in rows && rows[i].key == Revoke(t.id);
    }
  }

  // ---------------------------------------------------------------- how a message ends

  /** A row is SENT, FAILED before its eighth attempt or at it, or CANCELED. */
  datatype Ending = Delivery | Refusal | Exhaustion | Cancellation

  function EndingOf(r: Row): Option<Ending> {
    match r.state
    case Sent => Some(Delivery)
    case Failed => Some(if r.attempts < 8 then Refusal else Exhaustion)
    case Canceled => Some(Cancellation)
    case _ => None
  }

  /** The action that brings a row to this end. */
  predicate Ends(w: World, a: Action, id: int, end: Ending) {
    && HasRow(w, id) && Enabled(w, a) && !Aborts(w, a)
    && match end
       case Delivery => a.Finish? && a.id == id && HeldBy(w, id, a.claim) && a.outcome.Delivered?
       case Refusal =>
         a.Finish? && a.id == id && HeldBy(w, id, a.claim) && a.outcome == Undelivered(false) && RowOf(w, id).attempts + 1 < 8
       case Exhaustion =>
         a.Finish? && a.id == id && HeldBy(w, id, a.claim) && a.outcome.Undelivered? && RowOf(w, id).attempts + 1 == 8
       case Cancellation =>
         || (a.CancelPending? && RowOf(w, id).source == Some(a.canceledSource)
             && (RowOf(w, id).state == Pending || RowOf(w, id).state == RetryWaiting))
         || (a.Maintain? && id in a.expire && Overdue(RowOf(w, id), a.now))
         || (a.ClaimEmail? && a.id == id && !a.allowed)
         || (a.ClaimPush? && id in a.picks && id in a.blocked && RowOf(w, id).key.Copy?)
  }

  predicate RunEnds(w: World, actions: seq<Action>, id: int, end: Ending)
    decreases |actions|
  {
    actions != [] && (Ends(w, actions[0], id, end) || RunEnds(Step(w, actions[0]), actions[1..], id, end))
  }

  lemma StepEndsIff(w: World, a: Action, id: int, end: Ending)
    requires WorldOk(w) && HasRow(w, id) && EndingOf(RowOf(w, id)).None? && HasRow(Step(w, a), id)
    ensures EndingOf(RowOf(Step(w, a), id)) == Some(end) <==> Ends(w, a, id, end)
  {
    hide WorldOk, Step, Aborts, Enabled, Backoff, Fence;
    StepAt(w, a, id);
    if Enabled(w, a) && !Aborts(w, a) {
      match a
      case Finish(_, _, _, _) =>
        SettleIff(w, a);
        OpenHasAttemptsLeft(w, id);
      case Release(_, _, _) => SettleIff(w, a);
      case CancelPending(source) => CancelPendingIff(w, source, id);
      case Maintain(now, expire, purge) =>
        SweepReads(w, a, id);
        SweepIff(w, now, expire, purge, id);
      case ClaimEmail(_, _, _, _) => ClaimEmailIff(w, a);
      case ClaimPush(_, _, _, _) => ClaimPushIff(w, a, id);
      case _ =>
    }
  }

  lemma OpenHasAttemptsLeft(w: World, id: int)
    requires WorldOk(w) && HasRow(w, id) && !Terminal(RowOf(w, id).state)
    ensures 0 <= RowOf(w, id).attempts < 8
  {
    assert EntryOk(w.entries[id], w.clock, w.used);
  }

  lemma SweepReads(w: World, a: Action, id: int)
    requires a.Maintain? && Enabled(w, a) && id in w.entries
    ensures a.now <= w.clock
  {
    assert EntryEnabled(id, w.entries[id], a, w.clock);
  }

  /** A row that ended differently, or is new, is not brought to this end by the step. */
  lemma EndedAfterIff(w: World, a: Action, id: int, end: Ending)
    requires WorldOk(w) && Disciplined(w, a) && HasRow(Step(w, a), id) && (id in w.entries ==> HasRow(w, id))
    ensures EndingOf(RowOf(Step(w, a), id)) == Some(end) <==>
              (HasRow(w, id) && EndingOf(RowOf(w, id)) == Some(end)) || Ends(w, a, id, end)
  {
    if id in w.entries {
      if Terminal(RowOf(w, id).state) {
        StepKeepsTerminal(w, a, id);
        EndedCannotEnd(w, a, id, end);
      } else {
        StepEndsIff(w, a, id, end);
      }
    } else {
      NewRowsWait(w, a, id);
    }
  }

  lemma EndedCannotEnd(w: World, a: Action, id: int, end: Ending)
    requires HasRow(w, id) && Terminal(RowOf(w, id).state)
    ensures !Ends(w, a, id, end)
  {
    if Enabled(w, a) && id in w.entries {
      assert EntryEnabled(id, w.entries[id], a, w.clock);
    }
  }

  lemma NewRowsWait(w: World, a: Action, id: int)
    requires WorldOk(w) && id !in w.entries && HasRow(Step(w, a), id)
    ensures RowOf(Step(w, a), id).state == Pending
  {
    hide EntryOk, EntryStep, EntryEnabled;
    if Enabled(w, a) && !Aborts(w, a) {
      UpdateKeepsWorld(w, a);
      match a
      case Enqueue(now, drafts) => InsertAllKeepsEntries(Updated(w, a), Drafts(drafts, now, w.clock));
      case QueueRevokes(now, targets) => InsertAllKeepsEntries(Updated(w, a), RevokeRows(targets, now, w.clock));
      case _ =>
    }
  }

  /**
   Over any run, a row that is there at the end is SENT, FAILED early, FAILED at its eighth attempt or CANCELED if
   and only if it was at the start, or the run holds the action that brings it there: it was delivered, it failed
   permanently, it failed for the eighth time, or it was recalled, swept, or its user had become ineligible.
   */
  lemma {:induction false} RunEndsIff(w: World, actions: seq<Action>, id: int, end: Ending)
    requires WorldOk(w) && DisciplinedRun(w, actions) && HasRow(Run(w, actions), id)
    ensures EndingOf(RowOf(Run(w, actions), id)) == Some(end) <==>
              (HasRow(w, id) && EndingOf(RowOf(w, id)) == Some(end)) || RunEnds(w, actions, id, end)
    decreases |actions|
  {
    hide WorldOk, Step, Ends;
    if actions != [] {
      var w1 := Step(w, actions[0]);
      StepKeepsWorld(w, actions[0]);
      RunEndsIff(w1, actions[1..], id, end);
      if id in w.entries && !HasRow(w, id) {
        DeletedStaysDeleted(w, actions, id);
      }
      if HasRow(w1, id) {
        EndedAfterIff(w, actions[0], id, end);
      } else if id in w1.entries {
        DeletedStaysDeleted(w1, actions[1..], id);
      } else {
        NoRowNoEnd(w, actions[0], id, end);
      }
    }
  }

  lemma NoRowNoEnd(w: World, a: Action, id: int, end: Ending)
    requires WorldOk(w) && id !in Step(w, a).entries
    ensures !HasRow(w, id) && !Ends(w, a, id, end)
  {
    if id in w.entries {
      StepAt(w, a, id);
    }
  }
}
