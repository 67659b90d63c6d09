/** The Web Push delivery loop over the outbox: a batch is claimed, sent concurrently, and recorded in one transaction. */
module OutboxPush {
  import opened Common
  import opened OutboxModel
  import opened OutboxSafety
  import opened OutboxTheorems
  import opened OutboxEffects
  import opened OutboxService

  const CLAIM_BATCH := 50

  /** `full`: with this failure the device has reached its limit of permanent failures. */
  datatype PushResult = Accepted | Gone | Rejected(retryable: bool, full: bool)

  datatype PushJob = PushJob(job: Job, device: int)

  /** One batch: its token, the rows others have locked, the users who are blocked, what others commit, what the devices answer. */
  datatype PushTurn = PushTurn(
    token: Token, locked: set<int>, blocked: set<int>, lag: seq<Action>, during: seq<Action>, answers: map<int, PushResult>)

  /** A device that gives no answer has failed for now. */
  function Answer(answers: map<int, PushResult>, id: int): PushResult {
    if id in answers then answers[id] else PushResult.Rejected(true, false)
  }

  function PushTokens(turns: seq<PushTurn>): set<Token> {
    set t | t in turns :: t.token
  }

  predicate FreshPushes(turns: seq<PushTurn>) {
    && (forall i, j :: 0 <= i < j < |turns| ==> turns[i].token != turns[j].token)
    && (forall t :: t in turns ==> Foreign(t.lag, PushTokens(turns)) && Foreign(t.during, PushTokens(turns)))
  }

  lemma PushTokensSplit(turns: seq<PushTurn>, i: nat)
    requires FreshPushes(turns) && i < |turns|
    ensures PushTokens(turns[i..]) == {turns[i].token} + PushTokens(turns[i + 1..])
    ensures turns[i].token !in PushTokens(turns[i + 1..])
    ensures PushTokens(turns[i..]) <= PushTokens(turns)
  {
    assert turns[i..] == [turns[i]] + turns[i + 1..];
    forall t | t in turns[i + 1..]
      ensures t.token != turns[i].token && t in turns
    {
      var j :| i + 1 <= j < |turns| && turns[j] == t;
    }
  }

  // ---------------------------------------------------------------- the steps of a batch

  predicate Refused(r: Row, id: int, blocked: set<int>) {
    id in blocked && !r.key.Revoke?
  }

  /** What the claiming transaction leaves of a row it selected. */
  function Picked(r: Row, id: int, token: Token, blocked: set<int>, now: int, clock: int): Row {
    if Refused(r, id, blocked) then IneligibleRow(r, clock) else ClaimRow(r, token, now, clock)
  }

  predicate Claims(w: World, a: Action) {
    && a.ClaimPush? && a.now <= w.clock && a.token !in w.used
    && forall id :: id in a.picks ==> id in Rows(w) && Due(Rows(w)[id], Push, a.now)
  }

  lemma ClaimPushEnabled(w: World, a: Action)
    requires WorldOk(w) && Claims(w, a)
    ensures Enabled(w, a)
    ensures Aborts(w, a) <==>
              w.fenced && exists id :: id in a.picks && Refused(Rows(w)[id], id, a.blocked) && Rows(w)[id].state == Processing
  {
    RowsHaveEntries(w);
    if w.fenced {
      AbortsExactly(w, a);
      TableHasRows(w);
      forall id | id in w.entries && HasRow(w, id)
        ensures Ineligible(w, a, id) <==> id in a.picks && Refused(Rows(w)[id], id, a.blocked)
      {
      }
    }
  }

  lemma PickedEntry(id: int, e: Entry, a: Action, clock: int)
    requires a.ClaimPush? && EntryEnabled(id, e, a, clock)
    ensures EntryStep(id, e, a, clock).row
            == if id in a.picks then Some(Picked(e.row.value, id, a.token, a.blocked, a.now, clock)) else e.row
    ensures id in a.picks && !Refused(e.row.value, id, a.blocked) ==>
              EntryStep(id, e, a, clock).claims == e.claims + [Claim(a.token, e.row.value.attempts, clock, a.now + LEASE, true)]
  {
  }

  lemma ClaimPushFollows(w: World, a: Action)
    requires WorldOk(w) && Claims(w, a) && !Aborts(w, a)
    ensures WorldOk(Step(w, a))
    ensures Rows(Step(w, a)) == map id | id in Rows(w) ::
              if id in a.picks then Picked(Rows(w)[id], id, a.token, a.blocked, a.now, w.clock) else Rows(w)[id]
    ensures Step(w, a).nextId == w.nextId && Step(w, a).clock == w.clock && Step(w, a).fenced == w.fenced
    ensures Step(w, a).used == w.used + {a.token}
    ensures forall id :: id in a.picks && !Refused(Rows(w)[id], id, a.blocked) ==>
              id in w.entries
              && Owes(Step(w, a), Job(id, a.token, Rows(w)[id].attempts, |w.entries[id].claims|), w.clock)
  {
    hide EntryOk, EntryStep, EntryEnabled, Picked, Refused, AllFenced;
    ClaimPushEnabled(w, a);
    StepKeepsWorld(w, a);
    RowsHaveEntries(w);
    forall id | id in w.entries
      ensures Step(w, a).entries[id].row
              == if id in a.picks then Some(Picked(w.entries[id].row.value, id, a.token, a.blocked, a.now, w.clock))
                 else w.entries[id].row
      ensures id in a.picks && !Refused(w.entries[id].row.value, id, a.blocked) ==>
                Step(w, a).entries[id].claims
                == w.entries[id].claims + [Claim(a.token, w.entries[id].row.value.attempts, w.clock, a.now + LEASE, true)]
    {
      PickedEntry(id, w.entries[id], a, w.clock);
    }
  }

  lemma DropFollows(w: World, device: int)
    requires WorldOk(w)
    ensures WorldOk(Step(w, DropDevice(device)))
    ensures Rows(Step(w, DropDevice(device))) == map id | id in Rows(w) && Rows(w)[id].device != Some(device) :: Rows(w)[id]
    ensures var w' := Step(w, DropDevice(device));
            w'.nextId == w.nextId && w'.clock == w.clock && w'.fenced == w.fenced && w'.used == w.used
  {
    hide EntryOk, EntryStep, EntryEnabled, Fence;
    var a := DropDevice(device);
    forall id | id in w.entries
      ensures EntryEnabled(id, w.entries[id], a, w.clock)
      ensures EntryStep(id, w.entries[id], a, w.clock).row
              == if HasRow(w, id) && RowOf(w, id).device == Some(device) then None else w.entries[id].row
    {
      DroppedEntry(id, w.entries[id], a, w.clock);
    }
    if w.fenced {
      AbortsExactly(w, a);
    }
    StepKeepsWorld(w, a);
  }

  lemma DroppedEntry(id: int, e: Entry, a: Action, clock: int)
    requires a.DropDevice?
    ensures EntryEnabled(id, e, a, clock)
    ensures EntryStep(id, e, a, clock).row
            == if e.row.Some? && e.row.value.device == Some(a.device) then None else e.row
  {
  }

  // ---------------------------------------------------------------- the claims of a batch

  predicate OwesAll(w: World, jobs: seq<PushJob>, now: int) {
    forall j :: 0 <= j < |jobs| ==> Owes(w, jobs[j].job, now)
  }

  predicate DistinctJobs(jobs: seq<PushJob>) {
    forall i, j :: 0 <= i < j < |jobs| ==> jobs[i].job.id != jobs[j].job.id
  }

  predicate SettlesOne(a: Action, jobs: seq<PushJob>) {
    exists j :: 0 <= j < |jobs| && Settles(a, jobs[j].job.id, jobs[j].job.claim)
  }

  /** What others do: nobody else settles this batch's claims. */
  function LeavingAlone(actions: seq<Action>, jobs: seq<PushJob>): seq<Action>
    decreases |actions|
  {
    if actions == [] then []
    else (if SettlesOne(actions[0], jobs) then [] else [actions[0]]) + LeavingAlone(actions[1..], jobs)
  }

  lemma {:induction false} LeavingAloneIsAmong(actions: seq<Action>, jobs: seq<PushJob>)
    ensures forall a :: a in LeavingAlone(actions, jobs) ==> a in actions && !SettlesOne(a, jobs)
    decreases |actions|
  {
    hide SettlesOne;
    if actions != [] {
      LeavingAloneIsAmong(actions[1..], jobs);
    }
  }

  lemma RunKeepsBatch(w: World, actions: seq<Action>, jobs: seq<PushJob>, since: int)
    requires WorldOk(w) && OwesAll(w, jobs, since) && since <= w.clock
    requires forall a :: a in actions ==> !SettlesOne(a, jobs)
    ensures w.clock <= Run(w, actions).clock
    ensures forall now :: since <= now <= Run(w, actions).clock ==> OwesAll(Run(w, actions), jobs, now)
  {
    hide WorldOk, Run, Settles;
    ClockAdvances(w, actions);
    forall j, now | 0 <= j < |jobs| && since <= now <= Run(w, actions).clock
      ensures Owes(Run(w, actions), jobs[j].job, now)
    {
      assert Owes(w, jobs[j].job, since);
      RunKeepsClaim(w, actions, jobs[j].job.id, jobs[j].job.claim);
    }
  }

  /** Recording one job leaves the claims of the others as they are. */
  lemma StepKeepsBatch(w: World, a: Action, jobs: seq<PushJob>, now: int)
    requires WorldOk(w) && OwesAll(w, jobs, now) && !SettlesOne(a, jobs)
    ensures Step(w, a).clock == w.clock ==> OwesAll(Step(w, a), jobs, now)
  {
    hide WorldOk, Step, Settles;
    forall j | 0 <= j < |jobs| && Step(w, a).clock == w.clock
      ensures Owes(Step(w, a), jobs[j].job, now)
    {
      assert Owes(w, jobs[j].job, now);
      StepKeepsClaim(w, a, jobs[j].job.id, jobs[j].job.claim);
    }
  }

  // ---------------------------------------------------------------- the loop

  predicate PushDue(table: map<int, Row>, now: int, locked: set<int>, id: int) {
    IsDue(table, Push, now, locked, id) && table[id].device.Some?
  }

  /** Due rows of existing devices, in delivery order, before all the others. */
  predicate FirstOnes(table: map<int, Row>, picks: seq<int>, now: int, locked: set<int>) {
    && (forall i, j :: 0 <= i < j < |picks| ==> picks[i] != picks[j])
    && (forall id :: id in picks ==> PushDue(table, now, locked, id))
    && (forall i, j :: 0 <= i < j < |picks| ==>
          picks[i] in table && picks[j] in table && Before(table, picks[i], picks[j]))
    && (forall id, i :: id in table && id !in picks && PushDue(table, now, locked, id) && 0 <= i < |picks| ==>
          picks[i] in table && Before(table, picks[i], id))
  }

  /** And all of them, if there are fewer than `limit`. */
  predicate FirstBatch(table: map<int, Row>, picks: seq<int>, now: int, locked: set<int>, limit: nat) {
    && |picks| <= limit && FirstOnes(table, picks, now, locked)
    && (|picks| < limit ==> forall id :: id in table && PushDue(table, now, locked, id) ==> id in picks)
  }

  lemma OneMore(table: map<int, Row>, picks: seq<int>, now: int, locked: set<int>, next: int)
    requires FirstOnes(table, picks, now, locked) && next !in picks && PushDue(table, now, locked, next)
    requires forall id :: id in table && id !in picks && PushDue(table, now, locked, id) ==> Before(table, next, id)
    ensures FirstOnes(table, picks + [next], now, locked)
  {
    hide Before, Due;
  }

  /** The select of `_deliver_push`. */
  method SelectBatch(c: NotificationChannels, now: int, locked: set<int>, limit: nat) returns (picks: seq<int>)
    ensures FirstBatch(c.table, picks, now, locked, limit)
  {
    hide Due, Before, FirstOnes;
    picks := [];
    var skip := locked + set id | id in c.table && c.table[id].device.None?;
    NoneYet(c.table, now, locked);
    while |picks| < limit
      invariant |picks| <= limit && FirstOnes(c.table, picks, now, locked)
      decreases limit - |picks|
    {
      var taken := skip + set x | x in picks;
      var due := c.SelectDue(Push, now, taken);
      forall id | id in c.table && id !in picks && PushDue(c.table, now, locked, id)
        ensures IsDue(c.table, Push, now, taken, id)
      {
      }
      if due.None? {
        return;
      }
      assert due.value !in picks && PushDue(c.table, now, locked, due.value);
      OneMore(c.table, picks, now, locked, due.value);
      picks := picks + [due.value];
    }
  }

  lemma NoneYet(table: map<int, Row>, now: int, locked: set<int>)
    ensures FirstOnes(table, [], now, locked)
  {
  }

  /** The rows of a batch are written one by one; `jobs` are those that go out. */
  method WritePicks(c: NotificationChannels, picks: seq<int>, token: Token, blocked: set<int>, now: int)
    returns (jobs: seq<PushJob>)
    requires forall i, j :: 0 <= i < j < |picks| ==> picks[i] != picks[j]
    requires forall id :: id in picks ==> id in c.table && id in c.world.entries && c.table[id].device.Some?
    modifies c`table
    ensures c.table == map id | id in old(c.table) ::
              if id in picks then Picked(old(c.table)[id], id, token, blocked, now, c.clock) else old(c.table)[id]
    ensures |jobs| <= |picks| && DistinctJobs(jobs)
    ensures JobsOf(jobs, picks, old(c.table), c.world, token, blocked)
  {
    hide Picked, Refused, JobsOf;
    NoJobs(picks[..0], c.table, c.world, token, blocked);
    var was := c.table;
    jobs := [];
    for i := 0 to |picks|
      invariant c.table == map id | id in was ::
                  if id in picks[..i] then Picked(was[id], id, token, blocked, now, c.clock) else was[id]
      invariant |jobs| <= i && DistinctJobs(jobs)
      invariant JobsOf(jobs, picks[..i], was, c.world, token, blocked)
    {
      var id := picks[i];
      assert picks[..i + 1] == picks[..i] + [id] && id !in picks[..i];
      var row := was[id];
      c.table := c.table[id := Picked(row, id, token, blocked, now, c.clock)];
      JobsGrow(jobs, picks[..i], was, c.world, token, blocked, id);
      if !Refused(row, id, blocked) {
        jobs := jobs + [PushJob(Job(id, token, row.attempts, |c.world.entries[id].claims|), row.device.value)];
      }
    }
    assert picks[..|picks|] == picks;
  }

  /** The job of a row that was picked and not refused. */
  predicate JobOf(job: PushJob, picks: seq<int>, was: map<int, Row>, w: World, token: Token, blocked: set<int>) {
    var id := job.job.id;
    && id in picks && id in w.entries && id in was && !Refused(was[id], id, blocked)
    && job.job == Job(id, token, was[id].attempts, |w.entries[id].claims|) && was[id].device == Some(job.device)
  }

  predicate GoesOut(jobs: seq<PushJob>, id: int) {
    exists j :: 0 <= j < |jobs| && jobs[j].job.id == id
  }

  /** Every row that was picked and not refused goes out, and no other. */
  predicate JobsOf(jobs: seq<PushJob>, picks: seq<int>, was: map<int, Row>, w: World, token: Token, blocked: set<int>) {
    && (forall j :: 0 <= j < |jobs| ==> JobOf(jobs[j], picks, was, w, token, blocked))
    && (forall id :: id in picks && id in was && !Refused(was[id], id, blocked) ==> GoesOut(jobs, id))
  }

  lemma NoJobs(picks: seq<int>, was: map<int, Row>, w: World, token: Token, blocked: set<int>)
    ensures picks == [] ==> JobsOf([], picks, was, w, token, blocked)
  {
  }

  lemma JobsAreOwed(
    jobs: seq<PushJob>, picks: seq<int>, was: map<int, Row>, w: World, w': World, token: Token, blocked: set<int>, now: int)
    requires JobsOf(jobs, picks, was, w, token, blocked)
    requires forall id :: id in picks && id in was && id in w.entries && !Refused(was[id], id, blocked) ==>
               Owes(w', Job(id, token, was[id].attempts, |w.entries[id].claims|), now)
    ensures OwesAll(w', jobs, now)
  {
    hide Refused, Owes;
    forall j | 0 <= j < |jobs|
      ensures Owes(w', jobs[j].job, now)
    {
      assert JobOf(jobs[j], picks, was, w, token, blocked);
    }
  }

  lemma JobsGrow(jobs: seq<PushJob>, picks: seq<int>, was: map<int, Row>, w: World, token: Token, blocked: set<int>, id: int)
    requires JobsOf(jobs, picks, was, w, token, blocked) && DistinctJobs(jobs)
    requires id !in picks && id in was && id in w.entries && was[id].device.Some?
    ensures var more := if Refused(was[id], id, blocked) then jobs
                        else jobs + [PushJob(Job(id, token, was[id].attempts, |w.entries[id].claims|), was[id].device.value)];
            JobsOf(more, picks + [id], was, w, token, blocked) && DistinctJobs(more)
  {
    hide Refused;
    if !Refused(was[id], id, blocked) {
      var more := jobs + [PushJob(Job(id, token, was[id].attempts, |w.entries[id].claims|), was[id].device.value)];
      assert more[|jobs|].job.id == id;
      forall x | GoesOut(jobs, x)
        ensures GoesOut(more, x)
      {
        var j :| 0 <= j < |jobs| && jobs[j].job.id == x;
        assert more[j].job.id == x;
      }
      forall j | 0 <= j < |more|
        ensures JobOf(more[j], picks + [id], was, w, token, blocked)
      {
        assert j < |jobs| ==> JobOf(jobs[j], picks, was, w, token, blocked);
      }
    }
  }

  /** A message of a blocked user that its last sender never settled: the constraint forbids to cancel it. */
  predicate Stuck(table: map<int, Row>, picks: seq<int>, blocked: set<int>) {
    exists id :: id in picks && id in table && Refused(table[id], id, blocked) && table[id].state == Processing
  }

  /** The claiming transaction: one ineligible row with an old lease makes the database refuse the whole batch. */
  method ClaimBatch(c: NotificationChannels, now: int, token: Token, turn: PushTurn, limit: nat)
    returns (aborted: bool, jobs: seq<PushJob>, action: Action)
    requires c.Valid() && now <= c.clock && token !in c.world.used
    modifies c
    ensures c.Valid() && c.clock == old(c.clock) && action.ClaimPush? && |action.picks| <= limit
    ensures c.world == if aborted || action.picks == [] then old(c.world) else Step(old(c.world), action)
    ensures c.world.used <= old(c.world).used + {token}
    ensures action.now == now && action.token == token && FirstBatch(old(c.table), action.picks, now, turn.locked, limit)
    ensures action.blocked == set id | id in old(c.table) && old(c.table)[id].user in turn.blocked
    ensures aborted <==> Aborts(old(c.world), action)
    ensures aborted ==> jobs == [] && Stuck(old(c.table), action.picks, action.blocked) && c.fenced
    ensures !aborted ==> JobsOf(jobs, action.picks, old(c.table), old(c.world), token, action.blocked)
    ensures OwesAll(c.world, jobs, c.clock) && DistinctJobs(jobs) && |jobs| <= |action.picks|
  {
    hide WorldOk, Step, Rows, Enabled, Aborts, Owes, Due, Picked, Refused, Before, JobsOf;
    var picks := SelectBatch(c, now, turn.locked, limit);
    var blocked := set id | id in c.table && c.table[id].user in turn.blocked;
    action := ClaimPush(now, picks, token, blocked);
    jobs := [];
    ClaimPushEnabled(c.world, action);
    aborted := c.fenced && exists id :: id in picks && Refused(c.table[id], id, blocked) && c.table[id].state == Processing;
    NoJobs(picks, c.table, c.world, token, blocked);
    if aborted || picks == [] {
      return;
    }
    ClaimPushFollows(c.world, action);
    RowsHaveEntries(c.world);
    jobs := WritePicks(c, picks, token, blocked, now);
    JobsAreOwed(jobs, picks, old(c.table), c.world, Step(c.world, action), token, blocked, c.clock);
    c.world := Step(c.world, action);
  }

  /** The subscription is deleted, and the rows of its device with it. */
  method DropSubscription(c: NotificationChannels, device: int)
    requires c.Valid()
    modifies c
    ensures c.Valid() && c.world == Step(old(c.world), DropDevice(device))
    ensures c.clock == old(c.clock) && c.world.used == old(c.world).used
  {
    hide WorldOk, Step, Rows;
    DropFollows(c.world, device);
    c.table := map id | id in c.table && c.table[id].device != Some(device) :: c.table[id];
    c.world := Step(c.world, DropDevice(device));
  }

  /** What recording a job's result does, in order. */
  function Recording(job: PushJob, result: PushResult, now: int): seq<Action> {
    match result
    case Gone => [DropDevice(job.device)]
    case Accepted => [Finish(now, job.job.id, job.job.claim, Delivered)]
    case Rejected(retryable, full) =>
      [Finish(now, job.job.id, job.job.claim, Undelivered(retryable))]
      + if !retryable && full then [DropDevice(job.device)] else []
  }

  /** `_record_push`. */
  method RecordPush(c: NotificationChannels, job: PushJob, result: PushResult, ghost others: seq<PushJob>)
    requires c.Valid() && Owes(c.world, job.job, c.clock) && OwesAll(c.world, others, c.clock)
    requires forall j :: 0 <= j < |others| ==> others[j].job.id != job.job.id
    modifies c
    ensures c.Valid() && c.world == Run(old(c.world), Recording(job, result, c.clock))
    ensures c.clock == old(c.clock) && c.world.used == old(c.world).used && OwesAll(c.world, others, c.clock)
  {
    hide WorldOk, Step, Owes, OwesAll;
    ghost var w := c.world;
    if result.Gone? {
      KeepsOthers(c.world, DropDevice(job.device), others, c.clock);
      DropSubscription(c, job.device);
      RunOne(w, DropDevice(job.device));
      return;
    }
    var outcome := if result.Accepted? then Delivered else Undelivered(result.retryable);
    ghost var finish := Finish(c.clock, job.job.id, job.job.claim, outcome);
    KeepsOthers(c.world, finish, others, c.clock);
    c.Finish(job.job, outcome, c.clock);
    RunOne(w, finish);
    if result.Rejected? && !result.retryable && result.full {
      KeepsOthers(c.world, DropDevice(job.device), others, c.clock);
      RunExtends(w, [finish], DropDevice(job.device));
      DropSubscription(c, job.device);
    }
  }

  /** After this answer the device is gone: it has none any more, or failed for good once too often. */
  predicate LosesDevice(result: PushResult) {
    result.Gone? || (result.Rejected? && !result.retryable && result.full)
  }

  /**
   What recording an answer does to a row: the rows of a lost device are deleted, whatever they are; otherwise the
   job's own row takes the outcome if it is still held under the job's token, and no other row changes.
   */
  lemma RecordingIff(w: World, job: PushJob, result: PushResult, now: int, id: int)
    requires WorldOk(w) && Owes(w, job.job, now) && HasRow(w, id)
    requires HasRow(w, job.job.id) ==> RowOf(w, job.job.id).device == Some(job.device)
    ensures var before, w' := RowOf(w, id), Run(w, Recording(job, result, now));
            && (HasRow(w', id) <==> !(LosesDevice(result) && before.device == Some(job.device)))
            && (HasRow(w', id) ==>
                  if id == job.job.id && before.state == Processing && before.token == Some(job.job.token) then
                    Recorded(before, RowOf(w', id), if result.Accepted? then Delivered else Undelivered(result.retryable), now, w.clock)
                  else RowOf(w', id) == before)
  {
    hide WorldOk, Step, Backoff;
    var outcome := if result.Accepted? then Delivered else Undelivered(if result.Rejected? then result.retryable else false);
    var finish, drop := Finish(now, job.job.id, job.job.claim, outcome), DropDevice(job.device);
    if result.Gone? {
      RunOne(w, drop);
      DropIff(w, drop, id);
    } else {
      SettleCommits(w, finish);
      SettleIff(w, finish);
      StepKeepsWorld(w, finish);
      RunOne(w, finish);
      RunExtends(w, [finish], drop);
      DropIff(Step(w, finish), drop, id);
    }
  }

  lemma KeepsOthers(w: World, a: Action, others: seq<PushJob>, now: int)
    requires WorldOk(w) && OwesAll(w, others, now)
    requires a.DropDevice? || (a.Finish? && forall j :: 0 <= j < |others| ==> others[j].job.id != a.id)
    ensures Step(w, a).clock == w.clock ==> OwesAll(Step(w, a), others, now)
  {
    StepKeepsBatch(w, a, others, now);
  }

  function Recordings(jobs: seq<PushJob>, answers: map<int, PushResult>, now: int): seq<Action> {
    if jobs == [] then []
    else Recordings(jobs[..|jobs| - 1], answers, now) + Recording(jobs[|jobs| - 1], Answer(answers, jobs[|jobs| - 1].job.id), now)
  }

  function Sent(jobs: seq<PushJob>, answers: map<int, PushResult>): nat {
    if jobs == [] then 0
    else Sent(jobs[..|jobs| - 1], answers) + if Answer(answers, jobs[|jobs| - 1].job.id).Accepted? then 1 else 0
  }

  /** The recording transaction: every result of the batch. */
  method RecordBatch(c: NotificationChannels, jobs: seq<PushJob>, answers: map<int, PushResult>) returns (sent: nat)
    requires c.Valid() && OwesAll(c.world, jobs, c.clock) && DistinctJobs(jobs)
    modifies c
    ensures c.Valid() && c.world == Run(old(c.world), Recordings(jobs, answers, c.clock))
    ensures c.clock == old(c.clock) && c.world.used == old(c.world).used && sent == Sent(jobs, answers)
  {
    hide WorldOk, Step, Owes, Recording, Run;
    sent := 0;
    RunNone(c.world);
    for i := 0 to |jobs|
      invariant c.Valid() && c.world == Run(old(c.world), Recordings(jobs[..i], answers, c.clock))
      invariant c.clock == old(c.clock) && c.world.used == old(c.world).used && sent == Sent(jobs[..i], answers)
      invariant OwesAll(c.world, jobs[i..], c.clock)
    {
      assert jobs[..i + 1][..i] == jobs[..i] && jobs[i..][1..] == jobs[i + 1..] && jobs[i..][0] == jobs[i];
      OwesRest(c.world, jobs[i..], c.clock);
      RunAppends(old(c.world), Recordings(jobs[..i], answers, c.clock), Recording(jobs[i], Answer(answers, jobs[i].job.id), c.clock));
      RecordPush(c, jobs[i], Answer(answers, jobs[i].job.id), jobs[i + 1..]);
      if Answer(answers, jobs[i].job.id).Accepted? {
        sent := sent + 1;
      }
    }
    assert jobs[..|jobs|] == jobs;
  }

  lemma OwesRest(w: World, jobs: seq<PushJob>, now: int)
    requires OwesAll(w, jobs, now) && jobs != []
    ensures OwesAll(w, jobs[1..], now)
  {
  }

  lemma {:induction false} RecordingsTally(jobs: seq<PushJob>, answers: map<int, PushResult>, now: int)
    ensures Tally(Recordings(jobs, answers, now), DeliveredStep) == Sent(jobs, answers)
  {
    if jobs != [] {
      var front, last := jobs[..|jobs| - 1], jobs[|jobs| - 1];
      RecordingsTally(front, answers, now);
      TallyAppends(Recordings(front, answers, now), Recording(last, Answer(answers, last.job.id), now), DeliveredStep);
      RecordingTally(last, Answer(answers, last.job.id), now);
    }
  }

  lemma RecordingTally(job: PushJob, result: PushResult, now: int)
    ensures Tally(Recording(job, result, now), DeliveredStep) == if result.Accepted? then 1 else 0
  {
    var r := Recording(job, result, now);
    if |r| == 2 {
      assert r[1..] == [r[1]] && [r[1]][1..] == [];
      assert Tally([r[1]], DeliveredStep) == 0;
    } else {
      assert r[1..] == [];
    }
  }

  /** What a batch commits: nothing, or a claim and the recording of every answer to what went out. */
  ghost predicate PushPassOf(steps: seq<Action>, turn: PushTurn) {
    steps == [] ||
    (&& steps[0].ClaimPush? && steps[0].token == turn.token && steps[0].picks != []
     && exists jobs, now :: steps[1..] == Recordings(jobs, turn.answers, now))
  }

  /** The first due rows, at most `limit`; those whose user is not blocked go out, and all their answers are recorded. */
  ghost predicate PushChose(start: World, turn: PushTurn, limit: nat, own: seq<Action>) {
    var w := Run(start, turn.lag);
    && own != [] && own[0].ClaimPush? && own[0].now == start.clock && own[0].token == turn.token
    && FirstBatch(Rows(w), own[0].picks, start.clock, turn.locked, limit)
    && own[0].blocked == (set id | id in Rows(w) && Rows(w)[id].user in turn.blocked)
    && exists jobs, now ::
         own[1..] == Recordings(jobs, turn.answers, now)
         && JobsOf(jobs, own[0].picks, Rows(w), w, turn.token, own[0].blocked)
  }

  predicate PushEndsInLag(trace: seq<Action>, turn: PushTurn) {
    |turn.lag| <= |trace| && trace[|trace| - |turn.lag|..] == turn.lag
  }

  function PushBeforeLag(trace: seq<Action>, turn: PushTurn): seq<Action>
    requires PushEndsInLag(trace, turn)
  {
    trace[..|trace| - |turn.lag|]
  }

  predicate NoPushDue(table: map<int, Row>, now: int, locked: set<int>) {
    forall id :: id in table ==> !PushDue(table, now, locked, id)
  }

  ghost predicate StuckAmongFirst(table: map<int, Row>, now: int, turn: PushTurn) {
    exists picks, limit ::
      FirstBatch(table, picks, now, turn.locked, limit) && Stuck(table, picks, set id | id in table && table[id].user in turn.blocked)
  }

  /** Why the loop stops after a batch: it aborted over a stuck row among the first due, or nothing was due. */
  ghost predicate PushStopped(start: World, trace: seq<Action>, turn: PushTurn, aborted: bool) {
    var w := Run(start, trace);
    && PushEndsInLag(trace, turn)
    && if aborted then w.fenced && StuckAmongFirst(Rows(w), Run(start, PushBeforeLag(trace, turn)).clock, turn)
       else NoPushDue(Rows(w), Run(start, PushBeforeLag(trace, turn)).clock, turn.locked)
  }

  lemma StopsAfterLag(start: World, turn: PushTurn, limit: nat, aborted: bool, a: Action)
    requires a.ClaimPush? && Run(start, []) == start
    requires var w := Run(start, turn.lag);
             && FirstBatch(Rows(w), a.picks, start.clock, turn.locked, limit)
             && a.blocked == (set id | id in Rows(w) && Rows(w)[id].user in turn.blocked)
             && if aborted then w.fenced && Stuck(Rows(w), a.picks, a.blocked) else a.picks == []
    ensures limit > 0 ==> PushStopped(start, turn.lag, turn, aborted)
  {
    hide Run, Rows, PushDue, FirstOnes, Stuck;
    assert turn.lag[0..] == turn.lag && PushBeforeLag(turn.lag, turn) == [];
  }

  lemma PushStopsInTheRun(start: World, trace: seq<Action>, done: seq<Action>, turn: PushTurn, aborted: bool)
    requires PushStopped(Run(start, trace), done, turn, aborted)
    ensures PushStopped(start, trace + done, turn, aborted)
  {
    hide Run, Rows, NoPushDue, StuckAmongFirst;
    var all := trace + done;
    assert all[|all| - |turn.lag|..] == turn.lag;
    assert PushBeforeLag(all, turn) == trace + PushBeforeLag(done, turn);
    RunAppends(start, trace, done);
    RunAppends(start, trace, PushBeforeLag(done, turn));
  }

  /** One batch for each turn, in order; each but the last is not empty. */
  ghost predicate PushPasses(own: seq<Action>, turns: seq<PushTurn>, going: bool)
    decreases |turns|
  {
    if turns == [] then own == []
    else
      exists k: nat {:trigger own[..k]} :: k <= |own| && PushPasses(own[..k], turns[..|turns| - 1], true)
        && PushPassOf(own[k..], turns[|turns| - 1]) && (going ==> own[k..] != [])
  }

  lemma OneBatchMore(own: seq<Action>, turns: seq<PushTurn>, steps: seq<Action>, turn: PushTurn)
    requires PushPasses(own, turns, true) && PushPassOf(steps, turn)
    ensures PushPasses(own + steps, turns + [turn], steps != [])
  {
    hide PushPassOf;
    assert (own + steps)[..|own|] == own && (own + steps)[|own|..] == steps;
    assert (turns + [turn])[..|turns|] == turns;
  }

  /** The loop so far: its own actions, batch by batch, and why it stopped if it did. */
  ghost predicate PushProgress(start: World, trace: seq<Action>, own: seq<Action>, turns: seq<PushTurn>, going: bool, aborted: bool) {
    && Within(own, trace) && PushPasses(own, turns, going)
    && (!going ==> turns != [] && PushStopped(start, trace, turns[|turns| - 1], aborted))
  }

  lemma BatchAdds(
    start: World, trace: seq<Action>, own: seq<Action>, turns: seq<PushTurn>, done: seq<Action>, steps: seq<Action>, turn: PushTurn,
    aborted: bool)
    requires PushProgress(start, trace, own, turns, true, false) && Within(steps, done) && PushPassOf(steps, turn)
    requires steps == [] ==> PushStopped(Run(start, trace), done, turn, aborted)
    ensures PushProgress(start, trace + done, own + steps, turns + [turn], steps != [], aborted)
    ensures Run(start, trace + done) == Run(Run(start, trace), done)
    ensures Tally(own + steps, DeliveredStep) == Tally(own, DeliveredStep) + Tally(steps, DeliveredStep)
    ensures Picks(own + steps) == Picks(own) + Picks(steps)
  {
    hide Run, Within, PushPasses, PushStopped, Tally, Picks;
    RunAppends(start, trace, done);
    WithinAppends(own, trace, steps, done);
    OneBatchMore(own, turns, steps, turn);
    TallyAppends(own, steps, DeliveredStep);
    PicksAppend(own, steps);
    if steps == [] {
      PushStopsInTheRun(start, trace, done, turn, aborted);
    }
  }

  lemma NoBatchYet(start: World, turns: seq<PushTurn>)
    ensures PushProgress(start, [], [], turns[..0], true, false) && Run(start, []) == start
    ensures turns[0..] == turns && Tally([], DeliveredStep) == 0 && Picks([]) == 0
  {
  }

  lemma PushProgressMeans(start: World, trace: seq<Action>, own: seq<Action>, turns: seq<PushTurn>, going: bool, aborted: bool)
    requires PushProgress(start, trace, own, turns, going, aborted)
    ensures Within(own, trace) && PushPasses(own, turns, false)
    ensures !going ==> turns != [] && PushStopped(start, trace, turns[|turns| - 1], aborted)
  {
    hide Within, PushStopped;
  }

  /** One batch. `own` is what the loop itself committed in it. */
  method PushPass(c: NotificationChannels, turn: PushTurn, limit: nat, ghost tokens: set<Token>)
    returns (aborted: bool, picked: nat, sent: nat, done: seq<Action>, own: seq<Action>)
    requires c.Valid() && turn.token !in tokens && c.world.used !! {turn.token} + tokens
    requires Foreign(turn.lag, {turn.token} + tokens) && Foreign(turn.during, tokens)
    modifies c
    ensures c.Valid() && c.world == Run(old(c.world), done) && c.world.used !! tokens
    ensures Within(own, done) && picked <= limit && picked == Picks(own)
    ensures sent == Tally(own, DeliveredStep)
    ensures aborted || picked == 0 <==> own == []
    ensures PushPassOf(own, turn) && (own != [] ==> PushChose(old(c.world), turn, limit, own))
    ensures limit > 0 && own == [] ==> PushStopped(old(c.world), done, turn, aborted)
  {
    hide WorldOk, Step, Run, Owes, Foreign, Aborts, OwesAll, DistinctJobs, Recordings, Tally, JobsOf, Rows, FirstBatch;
    var now := c.clock;
    c.Interfere(turn.lag, {turn.token} + tokens);
    done, own, sent := turn.lag, [], 0;
    var jobs, action;
    aborted, jobs, action := ClaimBatch(c, now, turn.token, turn, limit);
    picked := if aborted then 0 else |action.picks|;
    TallyNothing();
    if aborted || picked == 0 {
      RunNone(old(c.world));
      StopsAfterLag(old(c.world), turn, limit, aborted, action);
      return;
    }
    RunExtends(old(c.world), done, action);
    WithinLast(done, action);
    done := done + [action];
    var others := LeavingAlone(turn.during, jobs);
    LeavingAloneIsAmong(turn.during, jobs);
    RunKeepsBatch(c.world, others, jobs, c.clock);
    ForeignPart(others, turn.during, tokens);
    c.Interfere(others, tokens);
    RunAppends(old(c.world), done, others);
    WithinAppends([action], done, [], others);
    assert [action] + [] == [action];
    done := done + others;
    sent := RecordBatch(c, jobs, turn.answers);
    var recorded := Recordings(jobs, turn.answers, c.clock);
    RecordingsTally(jobs, turn.answers, c.clock);
    TallyAppends([action], recorded, DeliveredStep);
    TallyClaim(action);
    RunAppends(old(c.world), done, recorded);
    WithinItself(recorded);
    WithinAppends([action], done, recorded, recorded);
    PicksOfBatch(action, jobs, turn.answers, c.clock);
    done, own := done + recorded, [action] + recorded;
    assert own[1..] == recorded;
    assert JobsOf(jobs, own[0].picks, Rows(Run(old(c.world), turn.lag)), Run(old(c.world), turn.lag), turn.token, own[0].blocked);
  }

  /** How many rows the loop's own claims selected. */
  function Picks(own: seq<Action>): nat
    decreases |own|
  {
    if own == [] then 0 else (if own[0].ClaimPush? then |own[0].picks| else 0) + Picks(own[1..])
  }

  lemma {:induction false} PicksAppend(first: seq<Action>, second: seq<Action>)
    ensures Picks(first + second) == Picks(first) + Picks(second)
    decreases |first|
  {
    if first == [] {
      assert first + second == second;
    } else {
      assert (first + second)[1..] == first[1..] + second;
      PicksAppend(first[1..], second);
    }
  }

  lemma {:induction false} RecordingsPickNothing(jobs: seq<PushJob>, answers: map<int, PushResult>, now: int)
    ensures Picks(Recordings(jobs, answers, now)) == 0
  {
    if jobs != [] {
      var front, last := jobs[..|jobs| - 1], jobs[|jobs| - 1];
      RecordingsPickNothing(front, answers, now);
      RecordingPicksNothing(last, Answer(answers, last.job.id), now);
      PicksAppend(Recordings(front, answers, now), Recording(last, Answer(answers, last.job.id), now));
    }
  }

  lemma RecordingPicksNothing(job: PushJob, result: PushResult, now: int)
    ensures Picks(Recording(job, result, now)) == 0
  {
    var r := Recording(job, result, now);
    if |r| == 2 {
      assert r[1..] == [r[1]] && [r[1]][1..] == [];
      assert Picks([r[1]]) == 0;
    } else {
      assert r[1..] == [];
    }
  }

  lemma PicksOfBatch(a: Action, jobs: seq<PushJob>, answers: map<int, PushResult>, now: int)
    requires a.ClaimPush?
    ensures Picks([a] + Recordings(jobs, answers, now)) == |a.picks|
  {
    RecordingsPickNothing(jobs, answers, now);
    assert ([a] + Recordings(jobs, answers, now))[1..] == Recordings(jobs, answers, now);
  }

  lemma TallyNothing()
    ensures Tally([], DeliveredStep) == 0
  {
  }

  lemma TallyClaim(a: Action)
    requires a.ClaimPush?
    ensures Tally([a], DeliveredStep) == 0
  {
    assert [a][1..] == [];
  }

  lemma ForeignPart(part: seq<Action>, all: seq<Action>, tokens: set<Token>)
    requires Foreign(all, tokens) && forall a :: a in part ==> a in all
    ensures Foreign(part, tokens)
  {
  }

  /**
   `_deliver_push`: batches until nothing is due, the run's limit is reached, or a batch aborts, and no earlier.
   Between its own transactions others commit what they like. What it does is a run of the machine.
   */
  method DeliverPush(c: NotificationChannels, turns: seq<PushTurn>, maxPerRun: nat)
    returns (sent: nat, processed: nat, aborted: bool, passes: nat, trace: seq<Action>, own: seq<Action>)
    requires c.Valid() && FreshPushes(turns) && c.world.used !! PushTokens(turns)
    modifies c
    ensures c.Valid() && c.world == Run(old(c.world), trace) && Within(own, trace)
    ensures passes <= |turns| && PushPasses(own, turns[..passes], false)
    ensures sent == Tally(own, DeliveredStep) && processed == Picks(own) <= maxPerRun
    ensures aborted || (passes < |turns| && processed < maxPerRun) ==>
              passes > 0 && PushStopped(old(c.world), trace, turns[passes - 1], aborted)
  {
    sent, processed, aborted, passes, trace, own := 0, 0, false, 0, [], [];
    var going := true;
    NoBatchYet(c.world, turns);
    hide *;
    while going && passes < |turns| && processed < maxPerRun
      invariant 0 <= passes <= |turns| && c.Valid() && c.world == Run(old(c.world), trace)
      invariant PushProgress(old(c.world), trace, own, turns[..passes], going, aborted) && (aborted ==> !going)
      invariant sent == Tally(own, DeliveredStep) && processed == Picks(own) <= maxPerRun
      invariant c.world.used !! PushTokens(turns[passes..])
      decreases |turns| - passes
    {
      var turn := turns[passes];
      ForeignTurn(turns, passes);
      var picked, more, done, steps;
      aborted, picked, more, done, steps := PushPass(c, turn, BatchLimit(maxPerRun - processed), PushTokens(turns[passes + 1..]));
      BatchAdds(old(c.world), trace, own, turns[..passes], done, steps, turn, aborted);
      trace, own, passes := trace + done, own + steps, passes + 1;
      sent, processed, going := sent + more, processed + picked, steps != [];
    }
    PushProgressMeans(old(c.world), trace, own, turns[..passes], going, aborted);
  }

  function BatchLimit(left: nat): (limit: nat)
    ensures limit == Min(CLAIM_BATCH, left)
    ensures left > 0 ==> 0 < limit <= left
  {
    Min(CLAIM_BATCH, left)
  }

  lemma ForeignTurn(turns: seq<PushTurn>, i: nat)
    requires FreshPushes(turns) && i < |turns|
    ensures PushTokens(turns[i..]) == {turns[i].token} + PushTokens(turns[i + 1..]) && turns[i].token !in PushTokens(turns[i + 1..])
    ensures turns[..i + 1] == turns[..i] + [turns[i]]
    ensures Foreign(turns[i].lag, {turns[i].token} + PushTokens(turns[i + 1..]))
    ensures Foreign(turns[i].during, PushTokens(turns[i + 1..]))
  {
    PushTokensSplit(turns, i);
    assert turns[i] in turns;
  }
}
