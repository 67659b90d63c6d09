/** What an administrator's recall of a source guarantees, from the recall on. */
module OutboxRecall {
  import opened Common
  import opened OutboxModel
  import opened OutboxSafety
  import opened OutboxTheorems

  predicate IsRevoke(w: World, q: int, id: int) {
    HasRow(w, q) && RowOf(w, q).key == Revoke(id)
  }

  /** A revoke row addresses the same user and device as the delivered row it names, which came before it. */
  predicate RevokesOk(w: World) {
    forall q :: q in w.entries && HasRow(w, q) && RowOf(w, q).key.Revoke? ==>
      RevokeOk(w, RowOf(w, q))
  }

  predicate RevokeOk(w: World, r: Row)
    requires r.key.Revoke?
  {
    && r.key.delivery in w.entries
    && (HasRow(w, r.key.delivery) ==>
          r.device == RowOf(w, r.key.delivery).device && r.user == RowOf(w, r.key.delivery).user)
  }

  // ---------------------------------------------------------------- revoke rows name real rows

  lemma UpdateKeepsRevokes(w: World, a: Action)
    requires WorldOk(w) && RevokesOk(w) && Enabled(w, a)
    ensures RevokesOk(Updated(w, a))
  {
    hide EntryOk, EntryStep, EntryEnabled;
    var w' := Updated(w, a);
    forall q | q in w'.entries && HasRow(w', q) && RowOf(w', q).key.Revoke?
      ensures RevokeOk(w', RowOf(w', q))
    {
      StepKeepsKey(q, w.entries[q], a, w.clock);
      assert HasRow(w, q) && RevokeOk(w, RowOf(w, q));
      var id := RowOf(w, q).key.delivery;
      if HasRow(w', id) {
        StepKeepsKey(id, w.entries[id], a, w.clock);
      }
    }
  }

  lemma InsertKeepsRevokes(w: World, r: Row)
    requires WorldOk(w) && RevokesOk(w) && (r.key.Revoke? ==> RevokeOk(w, r))
    ensures RevokesOk(Insert(w, r))
  {
    hide EntryOk;
    if !KeyTaken(w, r.key) {
      var w' := Insert(w, r);
      forall q | q in w'.entries && HasRow(w', q) && RowOf(w', q).key.Revoke?
        ensures RevokeOk(w', RowOf(w', q))
      {
        if q != w.nextId {
          assert HasRow(w, q) && RevokeOk(w, RowOf(w, q));
        }
      }
    }
  }

  lemma {:induction false} InsertAllKeepsRevokes(w: World, rows: seq<Row>)
    requires WorldOk(w) && RevokesOk(w)
    requires forall r :: r in rows ==> FreshRow(r) && (r.key.Revoke? ==> RevokeOk(w, r))
    ensures RevokesOk(InsertAll(w, rows))
    decreases |rows|
  {
    if rows != [] {
      InsertKeepsRevokes(w, rows[0]);
      InsertKeepsWorld(w, rows[0]);
      assert forall id :: id in w.entries ==> id < w.nextId;
      InsertKeepsEntries(w, rows[0]);
      forall r | r in rows[1..] && r.key.Revoke?
        ensures RevokeOk(Insert(w, rows[0]), r)
      {
        assert RevokeOk(w, r);
      }
      InsertAllKeepsRevokes(Insert(w, rows[0]), rows[1..]);
    }
  }

  lemma StepKeepsRevokes(w: World, a: Action)
    requires WorldOk(w) && RevokesOk(w)
    ensures RevokesOk(Step(w, a))
  {
    hide EntryOk, EntryStep, EntryEnabled;
    if Enabled(w, a) && !Aborts(w, a) {
      UpdateKeepsWorld(w, a);
      UpdateKeepsRevokes(w, a);
      var u := Updated(w, a);
      match a
      case Enqueue(now, drafts) => InsertAllKeepsRevokes(u, Drafts(drafts, now, w.clock));
      case QueueRevokes(now, targets) =>
        var rows := RevokeRows(targets, now, w.clock);
        forall r | r in rows
          ensures FreshRow(r) && r.key.Revoke? && RevokeOk(u, r)
        {
          var i :| 0 <= i < |rows| && rows[i] == r;
          assert targets[i] in targets;
          var id := targets[i].id;
          if HasRow(u, id) {
            StepKeepsKey(id, w.entries[id], a, w.clock);
          }
        }
        InsertAllKeepsRevokes(u, rows);
      case Tick(elapsed) =>
        assert forall q :: q in u.entries && HasRow(u, q) && RowOf(u, q).key.Revoke? ==> RevokeOk(u, RowOf(u, q));
      case _ =>
    }
  }

  lemma {:induction false} RunKeepsRevokes(w: World, actions: seq<Action>)
    requires WorldOk(w) && RevokesOk(w)
    ensures RevokesOk(Run(w, actions))
    decreases |actions|
  {
    if actions != [] {
      StepKeepsRevokes(w, actions[0]);
      StepKeepsWorld(w, actions[0]);
      RunKeepsRevokes(Step(w, actions[0]), actions[1..]);
    }
  }

  // ---------------------------------------------------------------- rows over a run

  predicate EnqueuesNoneOf(a: Action, source: string) {
    a.Enqueue? ==> forall d :: d in a.drafts ==> d.source != Some(source)
  }

  predicate RunEnqueuesNoneOf(actions: seq<Action>, source: string) {
    forall a :: a in actions ==> EnqueuesNoneOf(a, source)
  }

  predicate SameIdentity(r: Row, r': Row) {
    && r'.key == r.key && r'.source == r.source && r'.channel == r.channel && r'.device == r.device && r'.user == r.user
  }

  /** A row keeps its identity, and a row that is there was there before, unless it was just inserted. */
  lemma StepKeepsIdentity(w: World, a: Action, id: int)
    requires WorldOk(w) && id in w.entries
    ensures id in Step(w, a).entries
    ensures HasRow(Step(w, a), id) ==> HasRow(w, id) && SameIdentity(RowOf(w, id), RowOf(Step(w, a), id))
  {
    hide EntryOk, EntryStep, EntryEnabled;
    StepAt(w, a, id);
    if Enabled(w, a) && !Aborts(w, a) && HasRow(Step(w, a), id) {
      StepKeepsKey(id, w.entries[id], a, w.clock);
    }
  }

  lemma {:induction false} RunKeepsIdentity(w: World, actions: seq<Action>, id: int)
    requires WorldOk(w) && id in w.entries
    ensures id in Run(w, actions).entries
    ensures HasRow(Run(w, actions), id) ==> HasRow(w, id) && SameIdentity(RowOf(w, id), RowOf(Run(w, actions), id))
    decreases |actions|
  {
    hide WorldOk, Step;
    if actions != [] {
      StepKeepsIdentity(w, actions[0], id);
      StepKeepsWorld(w, actions[0]);
      RunKeepsIdentity(Step(w, actions[0]), actions[1..], id);
    }
  }

  lemma NewRowsAreNotOf(w: World, a: Action, source: string, id: int)
    requires WorldOk(w) && EnqueuesNoneOf(a, source)
    requires HasRow(Step(w, a), id) && RowOf(Step(w, a), id).source == Some(source)
    ensures id in w.entries
  {
    hide EntryOk, EntryStep, EntryEnabled;
    if Enabled(w, a) && !Aborts(w, a) && id !in w.entries {
      UpdateKeepsWorld(w, a);
      match a
      case Enqueue(now, drafts) => InsertAllKeepsEntries(Updated(w, a), Drafts(drafts, now, w.clock));
      case QueueRevokes(now, targets) => InsertAllKeepsEntries(Updated(w, a), RevokeRows(targets, now, w.clock));
      case _ =>
    }
  }

  /** Without an enqueue for the source, its rows were all there at the start. */
  lemma {:induction false} RowsWereThere(w: World, actions: seq<Action>, source: string, id: int)
    requires WorldOk(w) && RunEnqueuesNoneOf(actions, source)
    requires HasRow(Run(w, actions), id) && RowOf(Run(w, actions), id).source == Some(source)
    ensures HasRow(w, id) && SameIdentity(RowOf(w, id), RowOf(Run(w, actions), id))
    decreases |actions|
  {
    hide WorldOk, Step;
    if actions != [] {
      assert actions[0] in actions;
      StepKeepsWorld(w, actions[0]);
      RowsWereThere(Step(w, actions[0]), actions[1..], source, id);
      NewRowsAreNotOf(w, actions[0], source, id);
      StepKeepsIdentity(w, actions[0], id);
    }
  }

  /** A row that is not terminal at the end never was. */
  lemma NotTerminalBefore(w: World, actions: seq<Action>, id: int)
    requires WorldOk(w) && DisciplinedRun(w, actions) && HasRow(w, id)
    requires HasRow(Run(w, actions), id) && RowOf(Run(w, actions), id) != RowOf(w, id)
    ensures !Terminal(RowOf(w, id).state)
  {
    hide WorldOk, Run;
    if Terminal(RowOf(w, id).state) {
      TerminalIsFinal(w, actions, id);
    }
  }

  // ---------------------------------------------------------------- a revocation and its message

  /** The sweep deletes this row. */
  predicate Forgets(w: World, a: Action, q: int) {
    a.Maintain? && Enabled(w, a) && q in a.purge && HasRow(w, q) && Purgeable(RowOf(w, q), a.now)
  }

  predicate RunForgets(w: World, actions: seq<Action>, q: int)
    decreases |actions|
  {
    actions != [] && (Forgets(w, actions[0], q) || RunForgets(Step(w, actions[0]), actions[1..], q))
  }

  /** As long as its message is there a revocation is there, unless the sweep deletes it: then it is gone. */
  lemma RevokeAndMessage(q: int, revoke: Entry, id: int, message: Entry, a: Action, clock: int)
    requires revoke.row.Some? && message.row.Some?
    requires revoke.row.value.device == message.row.value.device && revoke.row.value.user == message.row.value.user
    requires EntryEnabled(q, revoke, a, clock) && EntryEnabled(id, message, a, clock)
    requires EntryStep(id, message, a, clock).row.Some?
    ensures EntryStep(q, revoke, a, clock).row.Some? <==> !(a.Maintain? && q in a.purge && Purgeable(revoke.row.value, a.now))
  {
  }

  /**
   While a message is kept, a step takes its revocation away if and only if it is a sweep that purges the
   revocation: a row in its batch, terminal, and last changed more than thirty days before.
   */
  lemma StepForgetsIff(w: World, a: Action, q: int, id: int)
    requires WorldOk(w) && RevokesOk(w) && IsRevoke(w, q, id) && HasRow(w, id) && HasRow(Step(w, a), id)
    ensures IsRevoke(Step(w, a), q, id) <==> !Forgets(w, a, q)
    ensures !HasRow(Step(w, a), q) <==> Forgets(w, a, q)
  {
    hide EntryOk, EntryStep, EntryEnabled, Purgeable;
    StepAt(w, a, q);
    StepAt(w, a, id);
    assert RevokeOk(w, RowOf(w, q));
    if Enabled(w, a) && !Aborts(w, a) {
      RevokeAndMessage(q, w.entries[q], id, w.entries[id], a, w.clock);
      if HasRow(Step(w, a), q) {
        StepKeepsKey(q, w.entries[q], a, w.clock);
      }
    } else if Enabled(w, a) && a.Maintain? {
      OnlyClaimsAbort(w, a);
    }
  }

  lemma {:induction false} GoneStaysGone(w: World, actions: seq<Action>, q: int, id: int)
    requires WorldOk(w) && q in w.entries && !HasRow(w, q)
    ensures !IsRevoke(Run(w, actions), q, id)
  {
    hide WorldOk, Run;
    DeletedStaysDeleted(w, actions, q);
  }

  /** Over a whole run that keeps the message, its revocation is gone if and only if some sweep purged it. */
  lemma {:induction false} RunForgetsIff(w: World, actions: seq<Action>, q: int, id: int)
    requires WorldOk(w) && RevokesOk(w) && IsRevoke(w, q, id) && HasRow(w, id) && HasRow(Run(w, actions), id)
    ensures IsRevoke(Run(w, actions), q, id) <==> !RunForgets(w, actions, q)
    decreases |actions|
  {
    hide WorldOk, RevokesOk, Step, Forgets;
    if actions != [] {
      EntriesOf(w, id, q);
      StepKeepsIdentity(w, actions[0], id);
      StepKeepsIdentity(w, actions[0], q);
      StepKeepsWorld(w, actions[0]);
      StepKeepsRevokes(w, actions[0]);
      RunKeepsIdentity(Step(w, actions[0]), actions[1..], id);
      StepForgetsIff(w, actions[0], q, id);
      if Forgets(w, actions[0], q) {
        GoneStaysGone(Step(w, actions[0]), actions[1..], q, id);
      } else {
        RunForgetsIff(Step(w, actions[0]), actions[1..], q, id);
      }
    }
  }

  lemma EntriesOf(w: World, id: int, q: int)
    requires HasRow(w, id) && HasRow(w, q)
    ensures id in w.entries && q in w.entries
  {
  }

  lemma StepKeepsAge(w: World, a: Action, q: int)
    requires WorldOk(w) && HasRow(w, q) && HasRow(Step(w, a), q)
    ensures RowOf(Step(w, a), q).updatedAt == RowOf(w, q).updatedAt || RowOf(Step(w, a), q).updatedAt == w.clock
  {
    StepAt(w, a, q);
  }

  /** For thirty days from a row's last change no sweep purges it. */
  lemma {:induction false} YoungIsKept(w: World, actions: seq<Action>, q: int, since: int)
    requires WorldOk(w) && q in w.entries && (HasRow(w, q) ==> since <= RowOf(w, q).updatedAt) && since <= w.clock
    requires Run(w, actions).clock <= since + TERMINAL_RETENTION
    ensures !RunForgets(w, actions, q)
    decreases |actions|
  {
    hide WorldOk, Step;
    if actions != [] {
      ClockAdvances(w, actions);
      StepKeepsSchema(w, actions[0]);
      StepKeepsWorld(w, actions[0]);
      StepKeepsIdentity(w, actions[0], q);
      if HasRow(Step(w, actions[0]), q) {
        StepKeepsAge(w, actions[0], q);
      }
      SweepReadsThePast(w, actions[0]);
      YoungIsKept(Step(w, actions[0]), actions[1..], q, since);
    }
  }

  lemma SweepReadsThePast(w: World, a: Action)
    ensures a.Maintain? && Enabled(w, a) && w.entries != map[] ==> a.now <= w.clock
  {
    if a.Maintain? && Enabled(w, a) && exists id :: id in w.entries {
      var id :| id in w.entries;
      assert EntryEnabled(id, w.entries[id], a, w.clock);
    }
  }

  // ---------------------------------------------------------------- the recall

  /**
   A recall is three statements: it cancels what waits, reads what it will revoke, and queues the
   revocations. Each sees the table as it is then; `between` and `during` are what others commit between
   the first two and between the last two.
   */
  datatype Recalling = Recalling(source: string, between: seq<Action>, during: seq<Action>, now: int, targets: seq<Target>)

  function AtSelect(w: World, r: Recalling): World {
    Run(Step(w, CancelPending(r.source)), r.between)
  }

  function AtInsert(w: World, r: Recalling): World {
    Run(AtSelect(w, r), r.during)
  }

  function AfterRecall(w: World, r: Recalling): World {
    Step(AtInsert(w, r), QueueRevokes(r.now, r.targets))
  }

  function TargetOf(w: World, id: int): Target
    requires HasRow(w, id)
  {
    Target(id, RowOf(w, id).user, RowOf(w, id).device)
  }

  /** The select: exactly the pushes of the source that are sent or being sent. */
  predicate Selected(w: World, source: string, targets: seq<Target>) {
    && (forall t :: t in targets ==> Revocable(w, t.id, source) && t == TargetOf(w, t.id))
    && (forall id :: id in w.entries && Revocable(w, id, source) ==> TargetOf(w, id) in targets)
  }

  /** A recall during which nobody enqueues for the source. */
  predicate IsRecall(w: World, r: Recalling) {
    && Selected(AtSelect(w, r), r.source, r.targets) && r.now <= AtInsert(w, r).clock
    && RunEnqueuesNoneOf(r.between, r.source) && RunEnqueuesNoneOf(r.during, r.source)
    && DisciplinedRun(Step(w, CancelPending(r.source)), r.between) && DisciplinedRun(AtSelect(w, r), r.during)
  }

  predicate PushOf(w: World, id: int, source: string) {
    HasRow(w, id) && RowOf(w, id).source == Some(source) && RowOf(w, id).channel == Push
  }

  /** It has been or can still be delivered. */
  predicate Deliverable(w: World, id: int, source: string) {
    PushOf(w, id, source) && RowOf(w, id).state != Canceled && RowOf(w, id).state != Failed
  }

  predicate Revoked(w: World, id: int) {
    exists q :: q in w.entries && IsRevoke(w, q, id)
  }

  /** A push of the source that was being sent when the recall canceled, and waited for a retry when the recall looked for what to revoke. */
  predicate Slips(w: World, r: Recalling, id: int) {
    && PushOf(w, id, r.source) && RowOf(w, id).state == Processing
    && HasRow(AtSelect(w, r), id) && Waiting(RowOf(AtSelect(w, r), id).state)
  }

  lemma RecallPointsOk(w: World, r: Recalling)
    requires WorldOk(w) && RevokesOk(w)
    ensures var w1 := Step(w, CancelPending(r.source));
            && WorldOk(w1) && WorldOk(AtSelect(w, r)) && WorldOk(AtInsert(w, r)) && WorldOk(AfterRecall(w, r))
            && RevokesOk(w1) && RevokesOk(AtSelect(w, r)) && RevokesOk(AtInsert(w, r)) && RevokesOk(AfterRecall(w, r))
  {
    hide WorldOk, RevokesOk, Step, Run;
    var w1 := Step(w, CancelPending(r.source));
    StepKeepsWorld(w, CancelPending(r.source));
    StepKeepsRevokes(w, CancelPending(r.source));
    RunKeepsWorld(w1, r.between);
    RunKeepsRevokes(w1, r.between);
    RunKeepsWorld(AtSelect(w, r), r.during);
    RunKeepsRevokes(AtSelect(w, r), r.during);
    StepKeepsWorld(AtInsert(w, r), QueueRevokes(r.now, r.targets));
    StepKeepsRevokes(AtInsert(w, r), QueueRevokes(r.now, r.targets));
  }

  lemma CancelCancels(w: World, source: string, id: int)
    requires WorldOk(w) && HasRow(w, id) && RowOf(w, id).source == Some(source)
    ensures HasRow(Step(w, CancelPending(source)), id)
    ensures var row := RowOf(Step(w, CancelPending(source)), id);
            if Waiting(RowOf(w, id).state) then row.state == Canceled else row == RowOf(w, id)
  {
    var a := CancelPending(source);
    OnlyClaimsAbort(w, a);
    StepAt(w, a, id);
  }

  /** Whatever of the source waits once the cancellation has committed was being sent at the cancellation. */
  lemma WaitingWasProcessing(w: World, source: string, actions: seq<Action>, id: int)
    requires WorldOk(w) && RunEnqueuesNoneOf(actions, source)
    requires var w1 := Step(w, CancelPending(source));
             && DisciplinedRun(w1, actions) && HasRow(Run(w1, actions), id)
             && RowOf(Run(w1, actions), id).source == Some(source) && Waiting(RowOf(Run(w1, actions), id).state)
    ensures HasRow(w, id) && RowOf(w, id).state == Processing
    ensures SameIdentity(RowOf(w, id), RowOf(Run(Step(w, CancelPending(source)), actions), id))
  {
    hide WorldOk, Run, Step;
    var w1 := Step(w, CancelPending(source));
    StepKeepsWorld(w, CancelPending(source));
    RowsWereThere(w1, actions, source, id);
    NewRowsAreNotOf(w, CancelPending(source), source, id);
    StepKeepsIdentity(w, CancelPending(source), id);
    CancelCancels(w, source, id);
    if Terminal(RowOf(w1, id).state) {
      NotTerminalBefore(w1, actions, id);
    }
  }

  lemma RecallQueues(w: World, r: Recalling)
    requires WorldOk(w) && RevokesOk(w) && IsRecall(w, r)
    ensures var w3 := AtInsert(w, r);
            && Enabled(w3, QueueRevokes(r.now, r.targets))
            && AfterRecall(w, r) == InsertAll(w3, RevokeRows(r.targets, r.now, w3.clock))
  {
    hide WorldOk, RevokesOk, Run, EntryStep;
    RecallPointsOk(w, r);
    var w2, w3 := AtSelect(w, r), AtInsert(w, r);
    forall t | t in r.targets
      ensures Names(w3, t)
    {
      RunKeepsIdentity(w2, r.during, t.id);
    }
    QueueOnlyInserts(w3, r.now, r.targets);
  }

  lemma QueueOnlyInserts(w: World, now: int, targets: seq<Target>)
    requires WorldOk(w) && now <= w.clock && forall t :: t in targets ==> Names(w, t)
    ensures Enabled(w, QueueRevokes(now, targets))
    ensures Step(w, QueueRevokes(now, targets)) == InsertAll(w, RevokeRows(targets, now, w.clock))
  {
    var a := QueueRevokes(now, targets);
    OnlyClaimsAbort(w, a);
    assert Update(w, a) == w.entries;
    assert Updated(w, a) == w;
  }

  lemma {:induction false} InsertAllTakesKeys(w: World, rows: seq<Row>, r: Row)
    requires WorldOk(w) && (forall x :: x in rows ==> FreshRow(x)) && r in rows
    ensures exists q :: q in InsertAll(w, rows).entries && HasRow(InsertAll(w, rows), q)
                        && RowOf(InsertAll(w, rows), q).key == r.key
    decreases |rows|
  {
    hide EntryOk;
    var w1 := Insert(w, rows[0]);
    InsertKeepsWorld(w, rows[0]);
    InsertAllKeepsEntries(w1, rows[1..]);
    var w2 := InsertAll(w1, rows[1..]);
    assert w2 == InsertAll(w, rows);
    if r == rows[0] {
      var q := if KeyTaken(w, r.key) then
                 var x :| x in w.entries && HasRow(w, x) && RowOf(w, x).key == r.key; x
               else w.nextId;
      assert q in w1.entries && RowOf(w1, q).key == r.key;
      assert w2.entries[q] == w1.entries[q];
      assert q in w2.entries && HasRow(w2, q) && RowOf(w2, q).key == r.key;
    } else {
      InsertAllTakesKeys(w1, rows[1..], r);
    }
  }

  /** The insert revokes the targets, and nothing but them. */
  lemma RevokedIff(w: World, r: Recalling, id: int)
    requires WorldOk(w) && RevokesOk(w) && IsRecall(w, r)
    ensures Revoked(AfterRecall(w, r), id) <==> Revoked(AtInsert(w, r), id) || exists t :: t in r.targets && t.id == id
  {
    hide WorldOk, RevokesOk, AtInsert, IsRecall, Revoked;
    RecallPointsOk(w, r);
    RecallQueues(w, r);
    var w3 := AtInsert(w, r);
    RevokedStays(w3, r.targets, r.now, id);
    if exists t :: t in r.targets && t.id == id {
      var t :| t in r.targets && t.id == id;
      TargetIsRevoked(w3, r.targets, r.now, t);
    }
  }

  lemma RevokedStays(w: World, targets: seq<Target>, now: int, id: int)
    requires WorldOk(w)
    ensures var w' := InsertAll(w, RevokeRows(targets, now, w.clock));
            && (Revoked(w, id) ==> Revoked(w', id))
            && (Revoked(w', id) ==> Revoked(w, id) || exists t :: t in targets && t.id == id)
  {
    hide WorldOk;
    var rows := RevokeRows(targets, now, w.clock);
    var w' := InsertAll(w, rows);
    IdsAreBelow(w);
    InsertAllKeepsEntries(w, rows);
    if Revoked(w, id) {
      var q :| q in w.entries && IsRevoke(w, q, id);
      assert IsRevoke(w', q, id);
    } else if Revoked(w', id) {
      var q :| q in w'.entries && IsRevoke(w', q, id);
      assert q !in w.entries;
      var i :| 0 <= i < |rows| && rows[i] == RowOf(w', q);
      assert targets[i] in targets && targets[i].id == id;
    }
  }

  lemma TargetIsRevoked(w: World, targets: seq<Target>, now: int, t: Target)
    requires WorldOk(w) && t in targets
    ensures Revoked(InsertAll(w, RevokeRows(targets, now, w.clock)), t.id)
  {
    hide WorldOk;
    var rows := RevokeRows(targets, now, w.clock);
    var i :| 0 <= i < |targets| && targets[i] == t;
    assert rows[i] in rows && rows[i].key == Revoke(t.id);
    InsertAllTakesKeys(w, rows, rows[i]);
    var w' := InsertAll(w, rows);
    var q :| q in w'.entries && HasRow(w', q) && RowOf(w', q).key == Revoke(t.id);
    assert IsRevoke(w', q, t.id);
  }

  lemma IdsAreBelow(w: World)
    requires WorldOk(w)
    ensures forall id :: id in w.entries ==> id < w.nextId
  {
  }

  /** Rows of messages are as they were before the insert. */
  lemma InsertLeavesRows(w: World, r: Recalling, id: int)
    requires WorldOk(w) && RevokesOk(w) && IsRecall(w, r)
    ensures HasRow(AtInsert(w, r), id) ==> HasRow(AfterRecall(w, r), id) && RowOf(AfterRecall(w, r), id) == RowOf(AtInsert(w, r), id)
    ensures HasRow(AfterRecall(w, r), id) && RowOf(AfterRecall(w, r), id).source == Some(r.source) ==> HasRow(AtInsert(w, r), id)
  {
    hide WorldOk, RevokesOk, AtInsert, IsRecall;
    RecallPointsOk(w, r);
    RecallQueues(w, r);
    var w3 := AtInsert(w, r);
    IdsAreBelow(w3);
    InsertAllKeepsEntries(w3, RevokeRows(r.targets, r.now, w3.clock));
  }

  /**
   A push that can still be delivered after the recall has no revocation if and only if it slipped between
   the recall's first two statements and no earlier recall had revoked it.
   */
  lemma MissedIff(w: World, r: Recalling, id: int)
    requires WorldOk(w) && RevokesOk(w) && IsRecall(w, r) && Deliverable(AfterRecall(w, r), id, r.source)
    ensures !Revoked(AfterRecall(w, r), id) <==> Slips(w, r, id) && !Revoked(AtInsert(w, r), id)
  {
    hide WorldOk, RevokesOk, Run, Step, Revoked;
    RecallPointsOk(w, r);
    RevokedIff(w, r, id);
    InsertLeavesRows(w, r, id);
    var w2, w3 := AtSelect(w, r), AtInsert(w, r);
    RowsWereThere(w2, r.during, r.source, id);
    if RowOf(w2, id) != RowOf(w3, id) {
      NotTerminalBefore(w2, r.during, id);
    }
    EntriesOf(w2, id, id);
    if Waiting(RowOf(w2, id).state) {
      WaitingWasProcessing(w, r.source, r.between, id);
    } else {
      assert Revocable(w2, id, r.source) && TargetOf(w2, id) in r.targets;
    }
  }

  // ---------------------------------------------------------------- rows are not changed in the future

  predicate ChangesPast(w: World) {
    forall id :: id in w.entries && HasRow(w, id) ==> RowOf(w, id).updatedAt <= w.clock
  }

  lemma StepKeepsChanges(w: World, a: Action)
    requires WorldOk(w) && ChangesPast(w)
    ensures ChangesPast(Step(w, a))
  {
    hide EntryOk, EntryStep, EntryEnabled;
    var w' := Step(w, a);
    StepKeepsSchema(w, a);
    forall id | id in w'.entries && HasRow(w', id)
      ensures RowOf(w', id).updatedAt <= w'.clock
    {
      if id in w.entries {
        StepKeepsIdentity(w, a, id);
        StepKeepsAge(w, a, id);
      } else {
        NewRowsAreNew(w, a, id);
      }
    }
  }

  lemma NewRowsAreNew(w: World, a: Action, id: int)
    requires WorldOk(w) && id !in w.entries && HasRow(Step(w, a), id)
    ensures RowOf(Step(w, a), id).updatedAt == w.clock
  {
    hide EntryOk, EntryStep, EntryEnabled;
    if Enabled(w, a) && !Aborts(w, a) {
      UpdateKeepsWorld(w, a);
      match a
      case Enqueue(now, drafts) => InsertAllKeepsEntries(Updated(w, a), Drafts(drafts, now, w.clock));
      case QueueRevokes(now, targets) => InsertAllKeepsEntries(Updated(w, a), RevokeRows(targets, now, w.clock));
      case _ =>
    }
  }

  lemma {:induction false} RunKeepsChanges(w: World, actions: seq<Action>)
    requires WorldOk(w) && ChangesPast(w)
    ensures ChangesPast(Run(w, actions))
    decreases |actions|
  {
    hide WorldOk, ChangesPast, Step;
    if actions != [] {
      StepKeepsChanges(w, actions[0]);
      StepKeepsWorld(w, actions[0]);
      RunKeepsChanges(Step(w, actions[0]), actions[1..]);
    }
  }

  // ---------------------------------------------------------------- after the recall

  predicate SentPush(w: World, id: int, source: string) {
    PushOf(w, id, source) && RowOf(w, id).state == Sent
  }

  predicate Quietly(w: World, actions: seq<Action>, source: string) {
    DisciplinedRun(w, actions) && RunEnqueuesNoneOf(actions, source)
  }

  /** What waited at the cancellation is CANCELED for good. */
  lemma RecallStopsWaiting(w: World, r: Recalling, later: seq<Action>, id: int)
    requires WorldOk(w) && RevokesOk(w) && IsRecall(w, r) && Quietly(AfterRecall(w, r), later, r.source)
    requires HasRow(w, id) && RowOf(w, id).source == Some(r.source) && Waiting(RowOf(w, id).state)
    ensures var w' := Run(AfterRecall(w, r), later);
            HasRow(w', id) ==> RowOf(w', id).state == Canceled
  {
    hide WorldOk, RevokesOk, Run, Step;
    RecallPointsOk(w, r);
    var w1, w2, w3, w4 := Step(w, CancelPending(r.source)), AtSelect(w, r), AtInsert(w, r), AfterRecall(w, r);
    CancelCancels(w, r.source, id);
    TerminalIsFinal(w1, r.between, id);
    if HasRow(w2, id) {
      TerminalIsFinal(w2, r.during, id);
    } else {
      EntriesOf(w1, id, id);
      RunKeepsIdentity(w1, r.between, id);
      DeletedStaysDeleted(w2, r.during, id);
    }
    if HasRow(w3, id) {
      InsertLeavesRows(w, r, id);
      TerminalIsFinal(w4, later, id);
    } else {
      RunKeepsIdentity(w2, r.during, id);
      StepKeepsIdentity(w3, QueueRevokes(r.now, r.targets), id);
      DeletedStaysDeleted(w4, later, id);
    }
  }

  lemma OneRevokeEach(w: World, id: int, q: int, q': int)
    requires WorldOk(w) && IsRevoke(w, q, id) && IsRevoke(w, q', id)
    ensures q == q'
  {
  }

  /** A push of the source that is SENT later could be delivered right after the recall. */
  lemma SentWasDeliverable(w: World, r: Recalling, later: seq<Action>, id: int)
    requires WorldOk(w) && RevokesOk(w) && IsRecall(w, r) && Quietly(AfterRecall(w, r), later, r.source)
    requires Deliverable(Run(AfterRecall(w, r), later), id, r.source)
    ensures Deliverable(AfterRecall(w, r), id, r.source)
  {
    hide WorldOk, RevokesOk, Run, Step, AfterRecall, IsRecall;
    RecallPointsOk(w, r);
    var w4 := AfterRecall(w, r);
    RowsWereThere(w4, later, r.source, id);
    if RowOf(Run(w4, later), id) != RowOf(w4, id) {
      NotTerminalBefore(w4, later, id);
    }
  }

  /**
   On every later run without an enqueue for the source, a SENT push of the source that did not slip has
   exactly one revocation, the one the recall left it, if and only if no sweep has purged that.
   */
  lemma RecallHolds(w: World, r: Recalling, later: seq<Action>, id: int) returns (q: int)
    requires WorldOk(w) && RevokesOk(w) && IsRecall(w, r) && Quietly(AfterRecall(w, r), later, r.source)
    requires SentPush(Run(AfterRecall(w, r), later), id, r.source) && !Slips(w, r, id)
    ensures IsRevoke(AfterRecall(w, r), q, id)
    ensures var w' := Run(AfterRecall(w, r), later);
            && (IsRevoke(w', q, id) <==> !RunForgets(AfterRecall(w, r), later, q))
            && (IsRevoke(w', q, id) ==> forall q' :: IsRevoke(w', q', id) ==> q' == q)
  {
    hide WorldOk, RevokesOk, Run, Step, AfterRecall, IsRecall, Slips, RunForgets, AtInsert;
    var w4 := AfterRecall(w, r);
    RecallPointsOk(w, r);
    SentWasDeliverable(w, r, later, id);
    MissedIff(w, r, id);
    q :| q in w4.entries && IsRevoke(w4, q, id);
    RunForgetsIff(w4, later, q, id);
    var w' := Run(w4, later);
    RunKeepsWorld(w4, later);
    forall q' | IsRevoke(w', q', id) && IsRevoke(w', q, id)
      ensures q' == q
    {
      OneRevokeEach(w', id, q', q);
    }
  }

  /** So it keeps one for thirty days from that revocation's last change. */
  lemma RevokeLastsForRetention(w: World, actions: seq<Action>, q: int, id: int)
    requires WorldOk(w) && RevokesOk(w) && ChangesPast(w) && IsRevoke(w, q, id)
    requires HasRow(w, id) && HasRow(Run(w, actions), id)
    requires Run(w, actions).clock <= RowOf(w, q).updatedAt + TERMINAL_RETENTION
    ensures IsRevoke(Run(w, actions), q, id) && !RunForgets(w, actions, q)
  {
    hide WorldOk, RevokesOk, Run, RunForgets;
    EntriesOf(w, q, q);
    YoungIsKept(w, actions, q, RowOf(w, q).updatedAt);
    RunForgetsIff(w, actions, q, id);
  }

  // ---------------------------------------------------------------- recalling again

  lemma {:induction false} InsertTakenIsNoop(w: World, rows: seq<Row>)
    requires forall r :: r in rows ==> KeyTaken(w, r.key)
    ensures InsertAll(w, rows) == w
    decreases |rows|
  {
    if rows != [] {
      assert Insert(w, rows[0]) == w;
      InsertTakenIsNoop(w, rows[1..]);
    }
  }

  /** What a repeated recall does up to its insert. */
  function AgainPath(rest: seq<Action>, again: Recalling): seq<Action> {
    rest + ([CancelPending(again.source)] + (again.between + again.during))
  }

  lemma AgainPathRuns(w: World, rest: seq<Action>, again: Recalling)
    ensures Run(w, AgainPath(rest, again)) == AtInsert(Run(w, rest), again)
  {
    var w5 := Run(w, rest);
    var cancel := CancelPending(again.source);
    RunAppends(w, rest, [cancel] + (again.between + again.during));
    assert ([cancel] + (again.between + again.during))[1..] == again.between + again.during;
    RunAppends(Step(w5, cancel), again.between, again.during);
  }

  predicate RevokesPushOf(w: World, q: int, source: string) {
    HasRow(w, q) && RowOf(w, q).key.Revoke? && PushOf(w, RowOf(w, q).key.delivery, source)
  }

  /** No push of the source slipped in the first recall, and no sweep purges one of its revocations before the second one's insert. */
  predicate NothingLost(w: World, r: Recalling, rest: seq<Action>, again: Recalling) {
    && (forall id :: id in w.entries ==> !Slips(w, r, id))
    && (forall q :: q in AfterRecall(w, r).entries && RevokesPushOf(AfterRecall(w, r), q, r.source) ==>
          !RunForgets(AfterRecall(w, r), AgainPath(rest, again), q))
  }

  /** A target of the second recall whose message is still there at its insert is revoked already. */
  lemma TargetWasRevoked(w: World, r: Recalling, rest: seq<Action>, again: Recalling, t: Target)
    requires WorldOk(w) && RevokesOk(w) && IsRecall(w, r) && Quietly(AfterRecall(w, r), rest, r.source)
    requires again.source == r.source && IsRecall(Run(AfterRecall(w, r), rest), again) && NothingLost(w, r, rest, again)
    requires t in again.targets && HasRow(AtInsert(Run(AfterRecall(w, r), rest), again), t.id)
    ensures KeyTaken(AtInsert(Run(AfterRecall(w, r), rest), again), Revoke(t.id))
  {
    hide WorldOk, RevokesOk, Run, Step, AfterRecall, Slips, RunForgets, AgainPath, DisciplinedRun, Names;
    var w4 := AfterRecall(w, r);
    var w5 := Run(w4, rest);
    var select, insert := AtSelect(w5, again), AtInsert(w5, again);
    RecallPointsOk(w, r);
    RunKeepsWorld(w4, rest);
    RunKeepsRevokes(w4, rest);
    RecallPointsOk(w5, again);
    assert Revocable(select, t.id, r.source);
    WasDeliverable(w5, again, t.id);
    SentWasDeliverable(w, r, rest, t.id);
    MissedIff(w, r, t.id);
    SlipsIsARow(w, r, t.id);
    var q :| q in w4.entries && IsRevoke(w4, q, t.id);
    AgainPathRuns(w4, rest, again);
    RunForgetsIff(w4, AgainPath(rest, again), q, t.id);
    assert IsRevoke(insert, q, t.id);
    EntriesOf(insert, q, q);
  }

  lemma SlipsIsARow(w: World, r: Recalling, id: int)
    ensures Slips(w, r, id) ==> id in w.entries
  {
    hide AtSelect;
  }

  /** What the second recall selects could be delivered before it. */
  lemma WasDeliverable(w: World, r: Recalling, id: int)
    requires WorldOk(w) && RevokesOk(w) && IsRecall(w, r) && Revocable(AtSelect(w, r), id, r.source)
    ensures Deliverable(w, id, r.source)
  {
    hide WorldOk, RevokesOk, Run, Step;
    var w1 := Step(w, CancelPending(r.source));
    StepKeepsWorld(w, CancelPending(r.source));
    RowsWereThere(w1, r.between, r.source, id);
    NewRowsAreNotOf(w, CancelPending(r.source), r.source, id);
    StepKeepsIdentity(w, CancelPending(r.source), id);
    CancelCancels(w, r.source, id);
    if RowOf(w1, id) != RowOf(AtSelect(w, r), id) {
      NotTerminalBefore(w1, r.between, id);
    }
  }

  /**
   Recalling again, whatever run without an enqueue for the source lies between, adds no revocation, unless a
   push had slipped, a sweep has purged a revocation, or a target's message is deleted under the recall. It
   cancels only rows that were being sent at the first recall.
   */
  lemma RecallIsIdempotent(w: World, r: Recalling, rest: seq<Action>, again: Recalling)
    requires WorldOk(w) && RevokesOk(w) && IsRecall(w, r) && Quietly(AfterRecall(w, r), rest, r.source)
    requires again.source == r.source && IsRecall(Run(AfterRecall(w, r), rest), again) && NothingLost(w, r, rest, again)
    requires forall t :: t in again.targets ==> HasRow(AtInsert(Run(AfterRecall(w, r), rest), again), t.id)
    ensures AfterRecall(Run(AfterRecall(w, r), rest), again) == AtInsert(Run(AfterRecall(w, r), rest), again)
  {
    hide WorldOk, RevokesOk, Run, Step, AfterRecall, AtInsert, NothingLost, IsRecall, Quietly, KeyTaken;
    var w4 := AfterRecall(w, r);
    var w5 := Run(w4, rest);
    var insert := AtInsert(w5, again);
    RecallPointsOk(w, r);
    RunKeepsWorld(w4, rest);
    RunKeepsRevokes(w4, rest);
    RecallQueues(w5, again);
    var rows := RevokeRows(again.targets, again.now, insert.clock);
    forall x | x in rows
      ensures KeyTaken(insert, x.key)
    {
      var i :| 0 <= i < |rows| && rows[i] == x;
      TargetWasRevoked(w, r, rest, again, again.targets[i]);
    }
    InsertTakenIsNoop(insert, rows);
  }

  /** What still waits when a recall is repeated was being sent at the first one. */
  lemma AgainCancelsOnlyTheSending(w: World, r: Recalling, rest: seq<Action>, id: int)
    requires WorldOk(w) && RevokesOk(w) && IsRecall(w, r) && Quietly(AfterRecall(w, r), rest, r.source)
    requires var w5 := Run(AfterRecall(w, r), rest);
             HasRow(w5, id) && RowOf(w5, id).source == Some(r.source) && Waiting(RowOf(w5, id).state)
    ensures HasRow(w, id) && RowOf(w, id).state == Processing
  {
    hide WorldOk, RevokesOk, Run, Step, AfterRecall, Selected;
    RecallPointsOk(w, r);
    var w2, w3, w4 := AtSelect(w, r), AtInsert(w, r), AfterRecall(w, r);
    RowsWereThere(w4, rest, r.source, id);
    if RowOf(Run(w4, rest), id) != RowOf(w4, id) {
      NotTerminalBefore(w4, rest, id);
    }
    InsertLeavesRows(w, r, id);
    RowsWereThere(w2, r.during, r.source, id);
    if RowOf(w3, id) != RowOf(w2, id) {
      NotTerminalBefore(w2, r.during, id);
    }
    var w1 := Step(w, CancelPending(r.source));
    RowsWereThere(w1, r.between, r.source, id);
    if RowOf(w2, id) != RowOf(w1, id) {
      NotTerminalBefore(w1, r.between, id);
    }
    NewRowsAreNotOf(w, CancelPending(r.source), r.source, id);
    StepKeepsIdentity(w, CancelPending(r.source), id);
    CancelCancels(w, r.source, id);
  }

  // ---------------------------------------------------------------- a push that slips

  /** A table of one row, and of two. */
  function Sole(e: Entry, used: set<Token>, clock: int): World {
    World(map[0 := e], 1, used, clock, true)
  }

  function Pair(e: Entry, f: Entry, used: set<Token>, clock: int): World {
    World(map[0 := e, 1 := f], 2, used, clock, true)
  }

  predicate ChangesRows(a: Action) {
    !a.Tick? && !a.Enqueue? && !a.QueueRevokes?
  }

  lemma SoleStep(e: Entry, used: set<Token>, clock: int, a: Action)
    requires ChangesRows(a) && EntryEnabled(0, e, a, clock) && Enabled(Sole(e, used, clock), a)
    requires EntryStep(0, e, a, clock).row.Some? ==> Fence(EntryStep(0, e, a, clock).row.value)
    ensures Step(Sole(e, used, clock), a) == Sole(EntryStep(0, e, a, clock), used + Spent(a), clock)
  {
    hide EntryStep, EntryEnabled, Fence;
    assert Update(Sole(e, used, clock), a) == map[0 := EntryStep(0, e, a, clock)];
  }

  lemma PairStep(e: Entry, f: Entry, used: set<Token>, clock: int, a: Action)
    requires ChangesRows(a) && EntryEnabled(0, e, a, clock) && EntryEnabled(1, f, a, clock)
    requires Enabled(Pair(e, f, used, clock), a)
    requires EntryStep(0, e, a, clock).row.Some? ==> Fence(EntryStep(0, e, a, clock).row.value)
    requires EntryStep(1, f, a, clock).row.Some? ==> Fence(EntryStep(1, f, a, clock).row.value)
    ensures Step(Pair(e, f, used, clock), a)
            == Pair(EntryStep(0, e, a, clock), EntryStep(1, f, a, clock), used + Spent(a), clock)
  {
    hide EntryStep, EntryEnabled, Fence;
    assert Update(Pair(e, f, used, clock), a) == map[0 := EntryStep(0, e, a, clock), 1 := EntryStep(1, f, a, clock)];
  }

  lemma TickStep(w: World, elapsed: nat)
    requires w.fenced && AllFenced(w.entries)
    ensures Step(w, Tick(elapsed)) == w.(clock := w.clock + elapsed)
  {
    assert Update(w, Tick(elapsed)) == w.entries;
  }

  const Message := Draft(1, Push, Some(7), "k", Some("s"), 100 * TERMINAL_RETENTION)

  const Queued := Entry(Some(MessageRow(Message, 0, 0)), [], [])

  const Sending := ClaimEntry(Queued, 1, 0, 0)

  /** A push of source "s" is enqueued at time 0 and claimed. */
  lemma MessageIsSent()
    ensures Run(Empty(0, true), [Enqueue(0, [Message]), ClaimPush(0, [0], 1, {})]) == Sole(Sending, {1}, 0)
  {
    var empty := Empty(0, true);
    var a, b := Enqueue(0, [Message]), ClaimPush(0, [0], 1, {});
    MessageIsQueued();
    assert Enabled(Sole(Queued, {}, 0), b);
    SoleStep(Queued, {}, 0, b);
    assert {} + Spent(b) == {1};
    hide Step;
    assert [a, b][1..] == [b] && [b][1..] == [];
    assert Run(Step(empty, a), [b]) == Step(Step(empty, a), b);
  }

  lemma MessageIsQueued()
    ensures Step(Empty(0, true), Enqueue(0, [Message])) == Sole(Queued, {}, 0)
  {
    var w := Empty(0, true);
    var a := Enqueue(0, [Message]);
    assert Enabled(w, a) && Update(w, a) == map[];
    assert Updated(w, a) == w;
    var row := MessageRow(Message, 0, 0);
    assert Drafts([Message], 0, 0) == [row];
    assert !KeyTaken(w, row.key);
    assert Insert(w, row) == Sole(Queued, {}, 0);
    assert [row][1..] == [];
    assert InsertAll(w, [row]) == Insert(w, row);
  }

  const Retry := Finish(0, 0, 0, Undelivered(true))

  const Slipping := Recalling("s", [Retry], [], 0, [])

  const Retrying := FinishEntry(Sending, 0, Undelivered(true), 0, 0)

  /** The recall finds it neither waiting at its first statement nor sent or being sent at its second. */
  lemma RecallLetsItSlip()
    ensures var w := Sole(Sending, {1}, 0);
            && IsRecall(w, Slipping) && AfterRecall(w, Slipping) == Sole(Retrying, {1}, 0) && Slips(w, Slipping, 0)
  {
    var w := Sole(Sending, {1}, 0);
    var cancel := CancelPending("s");
    SoleStep(Sending, {1}, 0, cancel);
    SoleStep(Sending, {1}, 0, Retry);
    RunOne(w, Retry);
    var slipped := Sole(Retrying, {1}, 0);
    RunNone(slipped);
    assert Disciplined(w, Retry) && DisciplinedRun(w, [Retry]);
    assert AtSelect(w, Slipping) == slipped && AtInsert(w, Slipping) == slipped;
    assert Update(slipped, QueueRevokes(0, [])) == slipped.entries;
  }

  const Resending := ClaimEntry(Retrying, 2, 60 * SECOND, 60 * SECOND)

  const Resent := FinishEntry(Resending, 1, Delivered, 60 * SECOND, 60 * SECOND)

  const SendAgain := [Tick(60 * SECOND), ClaimPush(60 * SECOND, [0], 2, {}), Finish(60 * SECOND, 0, 1, Delivered)]

  lemma ItIsSentAfterAll()
    ensures Run(Sole(Retrying, {1}, 0), SendAgain) == Sole(Resent, {1, 2}, 60 * SECOND)
  {
    var w := Sole(Retrying, {1}, 0);
    BackoffValues();
    TickStep(w, 60 * SECOND);
    SoleStep(Retrying, {1}, 60 * SECOND, SendAgain[1]);
    SoleStep(Resending, {1, 2}, 60 * SECOND, SendAgain[2]);
    hide Step;
    RunThree(w, SendAgain);
  }

  /** Under the constraint, whatever enqueues nothing for the source is quiet. */
  lemma FencedIsQuiet(start: int, before: seq<Action>, r: Recalling, later: seq<Action>)
    requires RunEnqueuesNoneOf(later, r.source) && AfterRecall(Run(Empty(start, true), before), r).fenced
    ensures Quietly(AfterRecall(Run(Empty(start, true), before), r), later, r.source)
  {
    hide Run, Step, WorldOk, RevokesOk, AfterRecall;
    var w := Run(Empty(start, true), before);
    EmptyWorldOk(start, true);
    RunKeepsWorld(Empty(start, true), before);
    assert RevokesOk(Empty(start, true)) by { EmptyRevokesOk(start); }
    RunKeepsRevokes(Empty(start, true), before);
    RecallPointsOk(w, r);
    FencedRunsAreDisciplined(AfterRecall(w, r), later);
  }

  lemma EmptyRevokesOk(start: int)
    ensures RevokesOk(Empty(start, true)) && ChangesPast(Empty(start, true))
  {
  }

  /** From the empty table: a push slips through a recall and is SENT after it without a revocation. */
  lemma APushSlips()
    ensures exists before, r, later ::
              var w := Run(Empty(0, true), before);
              && IsRecall(w, r) && Quietly(AfterRecall(w, r), later, r.source) && Slips(w, r, 0)
              && SentPush(Run(AfterRecall(w, r), later), 0, r.source) && !Revoked(Run(AfterRecall(w, r), later), 0)
  {
    hide Run, Step, IsRecall, Slips, Quietly, AfterRecall;
    var before := [Enqueue(0, [Message]), ClaimPush(0, [0], 1, {})];
    MessageIsSent();
    RecallLetsItSlip();
    ItIsSentAfterAll();
    var end := Sole(Resent, {1, 2}, 60 * SECOND);
    assert SentPush(end, 0, "s") && !Revoked(end, 0);
    FencedIsQuiet(0, before, Slipping, SendAgain);
    assert IsRecall(Run(Empty(0, true), before), Slipping);
  }

  // ---------------------------------------------------------------- a revocation that is forgotten

  const Unsent := Entry(Some(RevokeRow(Target(0, 1, Some(7)), 0, 0)), [], [])

  const Revoking := Recalling("s", [], [], 0, [Target(0, 1, Some(7))])

  /** A recall while the message is being sent. */
  lemma RecallWhileSending()
    ensures var w := Sole(Sending, {1}, 0);
            && IsRecall(w, Revoking) && AfterRecall(w, Revoking) == Pair(Sending, Unsent, {1}, 0) && !Slips(w, Revoking, 0)
  {
    var w := Sole(Sending, {1}, 0);
    var row := RevokeRow(Target(0, 1, Some(7)), 0, 0);
    SoleStep(Sending, {1}, 0, CancelPending("s"));
    RunNone(w);
    assert Revocable(w, 0, "s") && TargetOf(w, 0) == Target(0, 1, Some(7));
    assert AtSelect(w, Revoking) == w && AtInsert(w, Revoking) == w;
    var queue := QueueRevokes(0, Revoking.targets);
    assert Names(w, Target(0, 1, Some(7)));
    assert Update(w, queue) == w.entries && Updated(w, queue) == w;
    assert RevokeRows(Revoking.targets, 0, 0) == [row];
    assert !KeyTaken(w, Revoke(0));
    assert Insert(w, row) == Pair(Sending, Unsent, {1}, 0);
    assert [row][1..] == [];
    assert InsertAll(w, [row]) == Insert(w, row);
  }

  const RevokeSending := ClaimEntry(Unsent, 2, 5 * SECOND, 5 * SECOND)

  const RevokeSent := FinishEntry(RevokeSending, 0, Delivered, 5 * SECOND, 5 * SECOND)

  const MessageSent := FinishEntry(Sending, 0, Delivered, 10 * SECOND, 10 * SECOND)

  const Month := TERMINAL_RETENTION + 7 * SECOND

  const Forgetting := [
    Tick(5 * SECOND), ClaimPush(5 * SECOND, [1], 2, {}), Finish(5 * SECOND, 1, 0, Delivered),
    Tick(5 * SECOND), Finish(10 * SECOND, 0, 0, Delivered),
    Tick(Month - 10 * SECOND), Maintain(Month, {}, {0, 1})]

  /** The revocation is sent first. */
  lemma TheRevocationIsSent()
    ensures Run(Pair(Sending, Unsent, {1}, 0), Forgetting[..3]) == Pair(Sending, RevokeSent, {1, 2}, 5 * SECOND)
  {
    var w := Pair(Sending, Unsent, {1}, 0);
    TickStep(w, 5 * SECOND);
    PairStep(Sending, Unsent, {1}, 5 * SECOND, Forgetting[1]);
    PairStep(Sending, RevokeSending, {1, 2}, 5 * SECOND, Forgetting[2]);
    hide Step;
    RunThree(w, Forgetting[..3]);
  }

  /** The message five seconds later, within its lease. */
  lemma TheMessageIsSent()
    ensures Run(Pair(Sending, RevokeSent, {1, 2}, 5 * SECOND), Forgetting[3..5]) == Pair(MessageSent, RevokeSent, {1, 2}, 10 * SECOND)
  {
    var w := Pair(Sending, RevokeSent, {1, 2}, 5 * SECOND);
    TickStep(w, 5 * SECOND);
    PairStep(Sending, RevokeSent, {1, 2}, 10 * SECOND, Forgetting[4]);
    hide Step;
    RunTwo(w, Forgetting[3..5]);
  }

  /** A month later the sweep may delete the revocation and not the message. */
  lemma TheSweepForgets()
    ensures Run(Pair(MessageSent, RevokeSent, {1, 2}, 10 * SECOND), Forgetting[5..])
            == Pair(MessageSent, RevokeSent.(row := None), {1, 2}, Month)
  {
    var w := Pair(MessageSent, RevokeSent, {1, 2}, 10 * SECOND);
    TickStep(w, Month - 10 * SECOND);
    PairStep(MessageSent, RevokeSent, {1, 2}, Month, Forgetting[6]);
    hide Step;
    RunTwo(w, Forgetting[5..]);
  }

  /** From the empty table: a recall revokes a push that does not slip, and a month later its revocation is gone. */
  lemma ARevocationIsForgotten()
    ensures exists before, r, later ::
              var w := Run(Empty(0, true), before);
              && IsRecall(w, r) && Quietly(AfterRecall(w, r), later, r.source) && !Slips(w, r, 0)
              && SentPush(Run(AfterRecall(w, r), later), 0, r.source) && !Revoked(Run(AfterRecall(w, r), later), 0)
  {
    hide Run, Step, IsRecall, Slips, AfterRecall, Quietly;
    var before := [Enqueue(0, [Message]), ClaimPush(0, [0], 1, {})];
    MessageIsSent();
    RecallWhileSending();
    TheRevocationIsSent();
    TheMessageIsSent();
    TheSweepForgets();
    var w4 := Pair(Sending, Unsent, {1}, 0);
    assert Forgetting[..3] + Forgetting[3..5] == Forgetting[..5] && Forgetting[..5] + Forgetting[5..] == Forgetting;
    RunAppends(w4, Forgetting[..3], Forgetting[3..5]);
    RunAppends(w4, Forgetting[..5], Forgetting[5..]);
    var end := Pair(MessageSent, RevokeSent.(row := None), {1, 2}, Month);
    assert SentPush(end, 0, "s") && !Revoked(end, 0);
    FencedIsQuiet(0, before, Revoking, Forgetting);
    assert IsRecall(Run(Empty(0, true), before), Revoking);
  }
}
