/** Main results about the outbox: claims, terminal states, the constraint, retries. */
module OutboxTheorems {
  import opened Common
  import opened OutboxModel
  import opened OutboxSafety

  /** The empty table meets the invariant, so everything below holds of every reachable table. */
  lemma EmptyWorldOk(clock: int, fenced: bool)
    ensures WorldOk(Empty(clock, fenced))
  {
  }

  // ---------------------------------------------------------------- claims

  /** No two unexpired, unsettled claims on one row coexist, after any run. */
  lemma NoTwoLiveClaims(w: World, actions: seq<Action>, id: int, i: nat, j: nat)
    requires WorldOk(w) && id in Run(w, actions).entries
    requires i < |Run(w, actions).entries[id].claims| && Live(Run(w, actions).entries[id].claims[i], Run(w, actions).clock)
    requires j < |Run(w, actions).entries[id].claims| && Live(Run(w, actions).entries[id].claims[j], Run(w, actions).clock)
    ensures i == j
    ensures HasRow(Run(w, actions), id) ==> Holds(RowOf(Run(w, actions), id), Run(w, actions).entries[id].claims[i])
  {
    RunKeepsWorld(w, actions);
    assert EntryOk(Run(w, actions).entries[id], Run(w, actions).clock, Run(w, actions).used);
  }

  /** Whatever a worker whose claim was superseded does to settle it, the row and its failures stay. */
  lemma SupersededSettleChangesNothing(w: World, a: Action, id: int, k: nat)
    requires WorldOk(w) && id in w.entries && k < |w.entries[id].claims| - 1
    requires (a.Finish? || a.Release?) && a.id == id && a.claim == k
    ensures id in Step(w, a).entries
    ensures Step(w, a).entries[id].row == w.entries[id].row
    ensures Step(w, a).entries[id].failures == w.entries[id].failures
    ensures forall other :: other in w.entries && other != id ==>
              other in Step(w, a).entries && Step(w, a).entries[other] == w.entries[other]
  {
    assert EntryOk(w.entries[id], w.clock, w.used);
  }

  // ---------------------------------------------------------------- the constraint

  /** The rows an action sets to CANCELED because their user is no longer eligible. */
  predicate Ineligible(w: World, a: Action, id: int)
    requires id in w.entries && w.entries[id].row.Some?
  {
    match a
    case ClaimEmail(_, i, _, allowed) => i == id && !allowed
    case ClaimPush(_, picks, _, blocked) => id in picks && id in blocked && !w.entries[id].row.value.key.Revoke?
    case _ => false
  }

  lemma StepFences(w: World, a: Action, id: int)
    requires WorldOk(w) && w.fenced && Enabled(w, a) && HasRow(w, id)
    ensures var after := EntryStep(id, w.entries[id], a, w.clock).row;
            (after.Some? ==> Fence(after.value)) <==> !(Ineligible(w, a, id) && RowOf(w, id).state == Processing)
  {
    assert EntryEnabled(id, w.entries[id], a, w.clock);
    assert Fence(RowOf(w, id));
  }

  /**
   Exactly when the database rolls a transaction back: a claim finds a row whose user became
   ineligible and whose earlier claim ran out without being settled. Nothing else aborts.
   */
  lemma AbortsExactly(w: World, a: Action)
    requires WorldOk(w) && w.fenced && Enabled(w, a)
    ensures Aborts(w, a) <==>
            exists id :: id in w.entries && HasRow(w, id) && Ineligible(w, a, id) && RowOf(w, id).state == Processing
  {
    hide EntryOk, EntryStep, EntryEnabled, Fence, Ineligible;
    forall id | id in w.entries && HasRow(w, id)
      ensures (Update(w, a)[id].row.Some? ==> Fence(Update(w, a)[id].row.value))
              <==> !(Ineligible(w, a, id) && RowOf(w, id).state == Processing)
    {
      StepFences(w, a, id);
    }
    forall id | id in w.entries && Update(w, a)[id].row.Some?
      ensures HasRow(w, id)
    {
      StepKeepsKey(id, w.entries[id], a, w.clock);
    }
  }

  lemma OnlyClaimsAbort(w: World, a: Action)
    requires WorldOk(w) && Enabled(w, a) && !a.ClaimEmail? && !a.ClaimPush?
    ensures !Aborts(w, a)
  {
    if w.fenced {
      AbortsExactly(w, a);
    }
  }

  // ---------------------------------------------------------------- terminal states

  /** A rate-deferred release happens within its own lease, or the constraint is there to make that moot. */
  predicate Disciplined(w: World, a: Action) {
    a.Release? && a.id in w.entries && a.claim < |w.entries[a.id].claims| ==>
      w.fenced || w.clock < w.entries[a.id].claims[a.claim].until
  }

  predicate DisciplinedRun(w: World, actions: seq<Action>)
    decreases |actions|
  {
    actions != [] ==> Disciplined(w, actions[0]) && DisciplinedRun(Step(w, actions[0]), actions[1..])
  }

  lemma InsertKeepsEntries(w: World, r: Row)
    requires forall id :: id in w.entries ==> id < w.nextId
    ensures forall id :: id in Insert(w, r).entries ==> id < Insert(w, r).nextId
    ensures forall id :: id in w.entries ==> id in Insert(w, r).entries && Insert(w, r).entries[id] == w.entries[id]
    ensures Insert(w, r).nextId >= w.nextId
  {
  }

  lemma {:induction false} InsertAllKeepsEntries(w: World, rows: seq<Row>)
    requires forall id :: id in w.entries ==> id < w.nextId
    ensures forall id :: id in w.entries ==> id in InsertAll(w, rows).entries && InsertAll(w, rows).entries[id] == w.entries[id]
    ensures forall id :: id in InsertAll(w, rows).entries && id !in w.entries ==>
              HasRow(InsertAll(w, rows), id) && RowOf(InsertAll(w, rows), id) in rows
    ensures forall id :: id in InsertAll(w, rows).entries && id !in w.entries ==> id >= w.nextId
    ensures InsertAll(w, rows).nextId >= w.nextId && InsertAll(w, rows).clock == w.clock
    ensures InsertAll(w, rows).used == w.used && InsertAll(w, rows).fenced == w.fenced
    decreases |rows|
  {
    if rows != [] {
      var w1 := Insert(w, rows[0]);
      InsertKeepsEntries(w, rows[0]);
      InsertAllKeepsEntries(w1, rows[1..]);
      var w2 := InsertAll(w1, rows[1..]);
      forall id | id in w2.entries && id !in w.entries
        ensures HasRow(w2, id) && RowOf(w2, id) in rows
      {
        if id in w1.entries {
          assert w2.entries[id] == w1.entries[id] && RowOf(w1, id) == rows[0];
        } else {
          assert RowOf(w2, id) in rows[1..];
        }
      }
    }
  }

  /** A committed action takes every existing entry to its row update; aborted and disabled ones to itself. */
  lemma StepAt(w: World, a: Action, id: int)
    requires WorldOk(w) && id in w.entries
    ensures id in Step(w, a).entries
    ensures Step(w, a).entries[id] ==
            if Enabled(w, a) && !Aborts(w, a) then EntryStep(id, w.entries[id], a, w.clock) else w.entries[id]
  {
    hide EntryOk, EntryStep, EntryEnabled;
    if Enabled(w, a) && !Aborts(w, a) {
      UpdateKeepsWorld(w, a);
      match a
      case Enqueue(now, drafts) => InsertAllKeepsEntries(Updated(w, a), Drafts(drafts, now, w.clock));
      case QueueRevokes(now, targets) => InsertAllKeepsEntries(Updated(w, a), RevokeRows(targets, now, w.clock));
      case _ =>
    }
  }

  lemma StepKeepsTerminal(w: World, a: Action, id: int)
    requires WorldOk(w) && HasRow(w, id) && Terminal(RowOf(w, id).state)
    requires RowOf(w, id).state == Canceled ==> Disciplined(w, a)
    ensures HasRow(Step(w, a), id) ==> RowOf(Step(w, a), id) == RowOf(w, id)
  {
    StepAt(w, a, id);
    assert EntryOk(w.entries[id], w.clock, w.used);
    if Enabled(w, a) {
      assert EntryEnabled(id, w.entries[id], a, w.clock);
    }
  }

  lemma StepKeepsAbsence(w: World, a: Action, id: int)
    requires WorldOk(w) && id in w.entries && w.entries[id].row.None?
    ensures id in Step(w, a).entries && Step(w, a).entries[id].row.None?
  {
    StepAt(w, a, id);
    if Enabled(w, a) {
      assert EntryEnabled(id, w.entries[id], a, w.clock);
    }
  }

  /**
   SENT and FAILED are final: the row is not changed again until it is deleted. CANCELED is final too,
   on every run with the constraint, and without it on every run that releases within its leases.
   */
  lemma {:induction false} TerminalIsFinal(w: World, actions: seq<Action>, id: int)
    requires WorldOk(w) && HasRow(w, id) && Terminal(RowOf(w, id).state)
    requires RowOf(w, id).state == Canceled ==> DisciplinedRun(w, actions)
    ensures id in Run(w, actions).entries
    ensures HasRow(Run(w, actions), id) ==> RowOf(Run(w, actions), id) == RowOf(w, id)
    decreases |actions|
  {
    if actions != [] {
      StepKeepsTerminal(w, actions[0], id);
      StepKeepsWorld(w, actions[0]);
      StepAt(w, actions[0], id);
      if HasRow(Step(w, actions[0]), id) {
        TerminalIsFinal(Step(w, actions[0]), actions[1..], id);
      } else {
        DeletedStaysDeleted(Step(w, actions[0]), actions[1..], id);
      }
    }
  }

  lemma {:induction false} DeletedStaysDeleted(w: World, actions: seq<Action>, id: int)
    requires WorldOk(w) && id in w.entries && w.entries[id].row.None?
    ensures id in Run(w, actions).entries && Run(w, actions).entries[id].row.None?
    decreases |actions|
  {
    if actions != [] {
      StepKeepsAbsence(w, actions[0], id);
      StepKeepsWorld(w, actions[0]);
      DeletedStaysDeleted(Step(w, actions[0]), actions[1..], id);
    }
  }

  lemma {:induction false} FencedRunsAreDisciplined(w: World, actions: seq<Action>)
    requires WorldOk(w) && w.fenced
    ensures DisciplinedRun(w, actions)
    decreases |actions|
  {
    if actions != [] {
      StepKeepsSchema(w, actions[0]);
      StepKeepsWorld(w, actions[0]);
      FencedRunsAreDisciplined(Step(w, actions[0]), actions[1..]);
    }
  }

  lemma StepKeepsSchema(w: World, a: Action)
    requires WorldOk(w)
    ensures Step(w, a).fenced == w.fenced && Step(w, a).clock >= w.clock
  {
    hide EntryOk, EntryStep, EntryEnabled;
    if Enabled(w, a) && !Aborts(w, a) {
      UpdateKeepsWorld(w, a);
      match a
      case Enqueue(now, drafts) => InsertAllKeepsEntries(Updated(w, a), Drafts(drafts, now, w.clock));
      case QueueRevokes(now, targets) => InsertAllKeepsEntries(Updated(w, a), RevokeRows(targets, now, w.clock));
      case _ =>
    }
  }

  lemma {:induction false} ClockAdvances(w: World, actions: seq<Action>)
    requires WorldOk(w)
    ensures w.clock <= Run(w, actions).clock
    decreases |actions|
  {
    if actions != [] {
      StepKeepsSchema(w, actions[0]);
      StepKeepsWorld(w, actions[0]);
      ClockAdvances(Step(w, actions[0]), actions[1..]);
    }
  }

  /** Exactly when a step takes a row out of CANCELED: a release by the worker whose token the row still bears. */
  lemma CanceledComesBackExactly(w: World, a: Action, id: int)
    requires WorldOk(w) && HasRow(w, id) && RowOf(w, id).state == Canceled && Enabled(w, a)
    ensures a.Release? && a.id == id ==> a.claim < |w.entries[id].claims|
    ensures (HasRow(Step(w, a), id) && RowOf(Step(w, a), id).state != Canceled)
            <==> a.Release? && a.id == id && RowOf(w, id).token == Some(w.entries[id].claims[a.claim].token)
  {
    hide EntryOk, EntryStep, EntryEnabled, Fence;
    StepAt(w, a, id);
    CanceledEntryComesBack(id, w.entries[id], a, w.clock, w.used);
    if Aborts(w, a) {
      FencedCanceledHasNoToken(w, id);
    }
  }

  lemma CanceledEntryComesBack(id: int, e: Entry, a: Action, clock: int, used: set<Token>)
    requires e.row.Some? && e.row.value.state == Canceled && EntryEnabled(id, e, a, clock)
    ensures (EntryStep(id, e, a, clock).row.Some? && EntryStep(id, e, a, clock).row.value.state != Canceled)
            <==> a.Release? && a.id == id && e.row.value.token == Some(e.claims[a.claim].token)
    ensures a.Release? && a.id == id ==> a.claim < |e.claims|
  {
  }

  lemma FencedCanceledHasNoToken(w: World, id: int)
    requires WorldOk(w) && w.fenced && HasRow(w, id) && RowOf(w, id).state == Canceled
    ensures RowOf(w, id).token.None?
  {
    assert Fence(RowOf(w, id));
  }

  /** A message is claimed, its lease runs out, its user turns ineligible, and the first worker then defers it. */
  function StaleRelease(): seq<Action> {
    [Enqueue(0, [Draft(1, Email, None, "k", None, 2 * LEASE)]), ClaimEmail(0, 0, 1, true), Tick(LEASE),
     ClaimEmail(LEASE, 0, 2, false)]
  }

  function CanceledUnderStaleToken(): World {
    var row := Row(1, Email, None, Copy("k"), None, Canceled, 0, 0, 2 * LEASE, Some(1), Some(LEASE), LEASE);
    World(map[0 := Entry(Some(row), [Claim(1, 0, 0, LEASE, true)], [])], 1, {1, 2}, LEASE, false)
  }

  lemma StaleReleaseReaches()
    ensures Run(Empty(0, false), StaleRelease()) == CanceledUnderStaleToken()
  {
    hide WorldOk, Backoff;
    var a := StaleRelease();
    var w1 := StaleEnqueued();
    var w2 := w1.(entries := map[0 := ClaimEntry(w1.entries[0], 1, 0, 0)], used := {1});
    assert Step(w1, a[1]) == w2 by {
      assert EntryEnabled(0, w1.entries[0], a[1], 0);
      assert Update(w1, a[1]) == w2.entries;
    }
    var w3 := w2.(clock := LEASE);
    assert Step(w2, a[2]) == w3 by {
      assert Update(w2, a[2]) == w2.entries;
    }
    assert Step(w3, a[3]) == CanceledUnderStaleToken() by {
      assert EntryEnabled(0, w3.entries[0], a[3], LEASE);
      assert Update(w3, a[3])[0] == CanceledUnderStaleToken().entries[0];
      assert Update(w3, a[3]) == CanceledUnderStaleToken().entries;
    }
    EnqueueReaches();
    assert a[1..][1..] == a[2..] && a[2..][1..] == a[3..] && a[3..][1..] == [];
  }

  function StaleEnqueued(): World {
    World(map[0 := Entry(Some(MessageRow(Draft(1, Email, None, "k", None, 2 * LEASE), 0, 0)), [], [])], 1, {}, 0, false)
  }

  lemma EnqueueReaches()
    ensures Step(Empty(0, false), StaleRelease()[0]) == StaleEnqueued()
  {
    var draft := Draft(1, Email, None, "k", None, 2 * LEASE);
    var w0 := Empty(0, false);
    assert Drafts([draft], 0, 0) == [MessageRow(draft, 0, 0)];
    assert Update(w0, Enqueue(0, [draft])) == map[];
    assert Updated(w0, Enqueue(0, [draft])) == w0;
    assert InsertAll(w0, [MessageRow(draft, 0, 0)]) == Insert(w0, MessageRow(draft, 0, 0));
  }

  /** Without the constraint a release after its lease puts a canceled message back into the queue. */
  lemma WithoutFenceCanceledComesBack()
    ensures var w := Run(Empty(0, false), StaleRelease());
            && HasRow(w, 0) && RowOf(w, 0).state == Canceled
            && !Disciplined(w, Release(LEASE, 0, 0))
            && HasRow(Step(w, Release(LEASE, 0, 0)), 0)
            && RowOf(Step(w, Release(LEASE, 0, 0)), 0).state == Pending
  {
    StaleReleaseReaches();
    EmptyWorldOk(0, false);
    RunKeepsWorld(Empty(0, false), StaleRelease());
    var w := CanceledUnderStaleToken();
    assert Enabled(w, Release(LEASE, 0, 0));
    CanceledComesBackExactly(w, Release(LEASE, 0, 0), 0);
    StepAt(w, Release(LEASE, 0, 0), 0);
  }

  // ---------------------------------------------------------------- retries

  /** A row that is not terminal has fewer than eight attempts: none when PENDING, some when RETRY_WAITING. */
  lemma OpenRowsHaveAttemptsLeft(w: World, actions: seq<Action>, id: int)
    requires WorldOk(w) && HasRow(Run(w, actions), id)
    ensures var e := Run(w, actions).entries[id];
            && (!Terminal(e.row.value.state) ==> e.row.value.attempts == |e.failures| < MAX_ATTEMPTS)
            && (e.row.value.state == Pending ==> e.failures == [])
            && (e.row.value.state == RetryWaiting ==> e.failures != [])
            && (e.row.value.state == Sent ==> e.row.value.attempts == |e.failures| + 1)
  {
    RunKeepsWorld(w, actions);
    assert EntryOk(Run(w, actions).entries[id], Run(w, actions).clock, Run(w, actions).used);
  }

  lemma BackoffValues()
    ensures Backoff(1) == 60 * SECOND && Backoff(2) == 120 * SECOND && Backoff(3) == 240 * SECOND
    ensures Backoff(4) == 480 * SECOND && Backoff(5) == 960 * SECOND && Backoff(6) == 1920 * SECOND
    ensures Backoff(7) == 3600 * SECOND
  {
    assert Pow2(1) == 2;
    assert Pow2(2) == 4;
    assert Pow2(3) == 8;
    assert Pow2(4) == 16;
    assert Pow2(5) == 32;
    assert Pow2(6) == 64;
  }

  /** A row that used up its attempts spent at least 7380 seconds between its first and last failure. */
  lemma ExhaustionTakesTwoHours(w: World, actions: seq<Action>, id: int)
    requires WorldOk(w) && HasRow(Run(w, actions), id)
    requires RowOf(Run(w, actions), id).state == Failed && RowOf(Run(w, actions), id).attempts == MAX_ATTEMPTS
    ensures var failures := Run(w, actions).entries[id].failures;
            |failures| == MAX_ATTEMPTS && failures[7] - failures[0] >= 7380 * SECOND
  {
    RunKeepsWorld(w, actions);
    var e := Run(w, actions).entries[id];
    assert EntryOk(e, Run(w, actions).clock, Run(w, actions).used);
    BackoffValues();
    assert e.failures[0] + Backoff(1) <= e.failures[1];
    assert e.failures[1] + Backoff(2) <= e.failures[2];
    assert e.failures[2] + Backoff(3) <= e.failures[3];
    assert e.failures[3] + Backoff(4) <= e.failures[4];
    assert e.failures[4] + Backoff(5) <= e.failures[5];
    assert e.failures[5] + Backoff(6) <= e.failures[6];
    assert e.failures[6] + Backoff(7) <= e.failures[7];
  }

  // ---------------------------------------------------------------- runs in pieces

  lemma {:induction false} RunAppends(w: World, first: seq<Action>, second: seq<Action>)
    ensures Run(w, first + second) == Run(Run(w, first), second)
    decreases |first|
  {
    if first == [] {
      assert first + second == second;
    } else {
      assert (first + second)[1..] == first[1..] + second;
      RunAppends(Step(w, first[0]), first[1..], second);
    }
  }

  lemma RunExtends(w: World, actions: seq<Action>, a: Action)
    ensures Run(w, actions + [a]) == Step(Run(w, actions), a)
  {
    RunAppends(w, actions, [a]);
    assert [a][1..] == [];
  }

  lemma RunOne(w: World, a: Action)
    ensures Run(w, [a]) == Step(w, a)
  {
    assert [a][1..] == [];
  }

  lemma RunNone(w: World)
    ensures Run(w, []) == w
  {
  }

  lemma RunTwo(w: World, a: seq<Action>)
    requires |a| == 2
    ensures Run(w, a) == Step(Step(w, a[0]), a[1])
  {
    hide Step;
    assert a[1..][1..] == [];
    assert Run(Step(w, a[0]), a[1..]) == Step(Step(w, a[0]), a[1]);
  }

  lemma RunThree(w: World, a: seq<Action>)
    requires |a| == 3
    ensures Run(w, a) == Step(Step(Step(w, a[0]), a[1]), a[2])
  {
    hide Step;
    assert a[1..][1..] == a[2..] && a[2..][1..] == [];
    assert Run(Step(Step(w, a[0]), a[1]), a[2..]) == Step(Step(Step(w, a[0]), a[1]), a[2]);
  }
}
