/** The notification service's own methods over the outbox table, each proved to be a step of the machine. */
module OutboxService {
  import opened Common
  import opened OutboxModel
  import opened OutboxSafety
  import opened OutboxTheorems
  import opened OutboxEffects
  import opened OutboxRecall

  /** What a worker keeps of a row it claimed; `claim` is the claim's place in the row's history. */
  datatype Job = Job(id: int, token: Token, attempts: int, claim: nat)

  /** The worker still owes this job's outcome, and read the clock at `now`. */
  predicate Owes(w: World, job: Job, now: int) {
    && job.id in w.entries
    && OwnsClaim(w.entries[job.id], job.claim, now, w.clock)
    && w.entries[job.id].claims[job.claim].token == job.token
    && w.entries[job.id].claims[job.claim].attempts == job.attempts
  }

  datatype ClaimResult = NoneDue | Skipped | Aborted | Claimed(job: Job)

  datatype SendResult = Accepted | RateDeferred | Rejected(retryable: bool)

  /**
   One pass of the e-mail loop: when it begins by the loop's clock, the token it draws, the rows other transactions have locked, the users
   who may not be mailed, what others commit between its own steps, and what the sender answers.
   */
  datatype EmailTurn = EmailTurn(
    at: int, token: Token, locked: set<int>, optedOut: set<int>,
    lag: seq<Action>, during: seq<Action>, settling: seq<Action>, answer: SendResult)

  function Rows(w: World): map<int, Row> {
    map id | id in w.entries && HasRow(w, id) :: RowOf(w, id)
  }

  /** Delivery order: `ORDER BY next_attempt_at, id`. */
  predicate Before(table: map<int, Row>, i: int, j: int)
    requires i in table && j in table
  {
    table[i].nextAttemptAt < table[j].nextAttemptAt || (table[i].nextAttemptAt == table[j].nextAttemptAt && i <= j)
  }

  /** It is a strict order by time, and at equal times by id. */
  lemma DeliveryOrder(table: map<int, Row>, i: int, j: int)
    requires i in table && j in table
    ensures table[i].nextAttemptAt < table[j].nextAttemptAt ==> Before(table, i, j) && !Before(table, j, i)
    ensures table[i].nextAttemptAt == table[j].nextAttemptAt ==> (Before(table, i, j) <==> i <= j)
  {
  }

  predicate IsDue(table: map<int, Row>, channel: Channel, now: int, locked: set<int>, id: int) {
    id in table && id !in locked && Due(table[id], channel, now)
  }

  predicate NothingDue(table: map<int, Row>, channel: Channel, now: int, locked: set<int>) {
    forall id :: id in table ==> !IsDue(table, channel, now, locked, id)
  }

  /** The unlocked due row that comes first in delivery order. */
  predicate FirstDue(table: map<int, Row>, channel: Channel, now: int, locked: set<int>, id: int) {
    && IsDue(table, channel, now, locked, id)
    && forall x :: x in table && IsDue(table, channel, now, locked, x) ==> Before(table, id, x)
  }

  /** The run ends with what others committed while the last pass was about to claim. */
  predicate EndsInLag(trace: seq<Action>, turn: EmailTurn) {
    |turn.lag| <= |trace| && trace[|trace| - |turn.lag|..] == turn.lag
  }

  function BeforeLag(trace: seq<Action>, turn: EmailTurn): seq<Action>
    requires EndsInLag(trace, turn)
  {
    trace[..|trace| - |turn.lag|]
  }

  /** The first due row is an ineligible user's whose last sender never settled it: the constraint forbids to cancel it. */
  ghost predicate Unsettled(table: map<int, Row>, now: int, turn: EmailTurn) {
    exists id :: FirstDue(table, Email, now, turn.locked, id) && table[id].user in turn.optedOut && table[id].state == Processing
  }

  /** Why the loop stops after a pass: it aborted, the sender deferred it, or nothing was due by the clock it had read. */
  ghost predicate Stopped(start: World, trace: seq<Action>, own: seq<Action>, turn: EmailTurn, aborted: bool) {
    if !aborted && own != [] && own[|own| - 1].Release? then true
    else
      var w := Run(start, trace);
      && EndsInLag(trace, turn)
      && if aborted then w.fenced && Unsettled(Rows(w), Run(start, BeforeLag(trace, turn)).clock, turn)
         else NothingDue(Rows(w), Email, Run(start, BeforeLag(trace, turn)).clock, turn.locked)
  }

  /** What a pass found, it found in the whole run as well. */
  lemma StopsInTheRun(start: World, trace: seq<Action>, own: seq<Action>, done: seq<Action>, steps: seq<Action>, turn: EmailTurn, aborted: bool)
    requires Stopped(Run(start, trace), done, steps, turn, aborted) && |steps| <= 2 && (aborted ==> steps == [])
    ensures Stopped(start, trace + done, own + steps, turn, aborted)
  {
    hide Run, Rows, NothingDue, Unsettled;
    RunAppends(start, trace, done);
    if !aborted && steps != [] && steps[|steps| - 1].Release? {
      assert (own + steps)[|own + steps| - 1] == steps[|steps| - 1];
    } else {
      var all := trace + done;
      assert all[|all| - |turn.lag|..] == turn.lag;
      assert BeforeLag(all, turn) == trace + BeforeLag(done, turn);
      RunAppends(start, trace, BeforeLag(done, turn));
    }
  }

  /** The loop so far: its own actions, pass by pass, and why it stopped if it did. */
  ghost predicate Progress(
    start: World, trace: seq<Action>, own: seq<Action>, turns: seq<EmailTurn>, deadline: int, going: bool, aborted: bool)
  {
    && Within(own, trace) && Passes(own, turns, going) && BeforeDeadline(turns, deadline)
    && (!going ==> turns != [] && Stopped(start, trace, own, turns[|turns| - 1], aborted))
  }

  lemma PassAdds(
    start: World, trace: seq<Action>, own: seq<Action>, turns: seq<EmailTurn>, done: seq<Action>, steps: seq<Action>, turn: EmailTurn,
    deadline: int, aborted: bool)
    requires Progress(start, trace, own, turns, deadline, true, false)
    requires Within(steps, done) && PassOf(steps, turn) && turn.at < deadline && (aborted ==> steps == [])
    requires GoesOn(steps) || Stopped(Run(start, trace), done, steps, turn, aborted)
    ensures Progress(start, trace + done, own + steps, turns + [turn], deadline, GoesOn(steps), aborted)
    ensures Run(start, trace + done) == Run(Run(start, trace), done)
    ensures var c, more := CountsOf(own), CountsOf(steps);
            CountsOf(own + steps) == Counters(c.sent + more.sent, c.attempted + more.attempted, c.scanned + more.scanned)
  {
    hide Run, Within, Passes, Stopped, GoesOn, CountsOf;
    RunAppends(start, trace, done);
    CountsAdd(own, steps);
    WithinAppends(own, trace, steps, done);
    OnePassMore(own, turns, steps, turn, GoesOn(steps));
    if !GoesOn(steps) {
      StopsInTheRun(start, trace, own, done, steps, turn, aborted);
    }
  }

  /** The row a pass takes, and what it does with it. */
  ghost predicate Chose(start: World, turn: EmailTurn, result: ClaimResult, own: seq<Action>) {
    && own != [] && own[0].ClaimEmail? && own[0] == ClaimEmail(start.clock, own[0].id, turn.token, result.Claimed?)
    && FirstDue(Rows(Run(start, turn.lag)), Email, start.clock, turn.locked, own[0].id)
    && (result.Claimed? <==> Rows(Run(start, turn.lag))[own[0].id].user !in turn.optedOut)
    && (result.Claimed? ==>
          |own| == 2 && own[0].id == result.job.id && exists at :: own[1] == Settlement(result.job, turn.answer, at))
  }

  /** Others never draw any of these tokens. */
  predicate Foreign(actions: seq<Action>, tokens: set<Token>) {
    forall a :: a in actions ==> Spent(a) !! tokens
  }

  function TurnTokens(turns: seq<EmailTurn>): set<Token> {
    set t | t in turns :: t.token
  }

  /** The tokens of a run are random: distinct, and drawn by nobody else. */
  predicate FreshTurns(turns: seq<EmailTurn>) {
    && (forall i, j :: 0 <= i < j < |turns| ==> turns[i].token != turns[j].token)
    && (forall t :: t in turns ==>
          && Foreign(t.lag, TurnTokens(turns))
          && Foreign(t.during, TurnTokens(turns))
          && Foreign(t.settling, TurnTokens(turns)))
  }

  lemma ForeignTurn(turns: seq<EmailTurn>, i: nat)
    requires FreshTurns(turns) && i < |turns|
    ensures var rest := TurnTokens(turns[i + 1..]);
            && TurnTokens(turns[i..]) == {turns[i].token} + rest && turns[i].token !in rest
            && Foreign(turns[i].lag, {turns[i].token} + rest) && Foreign(turns[i].during, rest) && Foreign(turns[i].settling, rest)
    ensures turns[..i + 1] == turns[..i] + [turns[i]]
  {
    TurnTokensSplit(turns, i);
    assert turns[i] in turns;
  }

  lemma TurnTokensSplit(turns: seq<EmailTurn>, i: nat)
    requires FreshTurns(turns) && i < |turns|
    ensures TurnTokens(turns[i..]) == {turns[i].token} + TurnTokens(turns[i + 1..])
    ensures turns[i].token !in TurnTokens(turns[i + 1..])
    ensures TurnTokens(turns[i..]) <= TurnTokens(turns)
    ensures turns[..i + 1] == turns[..i] + [turns[i]]
  {
    assert turns[i..] == [turns[i]] + turns[i + 1..];
    forall t | t in turns[i + 1..]
      ensures t.token != turns[i].token && t in turns
    {
      var j :| i + 1 <= j < |turns| && turns[j] == t;
    }
  }

  /** How a worker records what the sender answered. */
  function Settlement(job: Job, answer: SendResult, now: int): Action {
    match answer
    case RateDeferred => Release(now, job.id, job.claim)
    case Accepted => Finish(now, job.id, job.claim, Delivered)
    case Rejected(retryable) => Finish(now, job.id, job.claim, Undelivered(retryable))
  }

  /** What a pass commits: nothing, a claim that cancels, or a claim and at once the settlement of the sender's answer. */
  ghost predicate PassOf(steps: seq<Action>, turn: EmailTurn) {
    || steps == []
    || (&& |steps| <= 2 && steps[0].ClaimEmail? && steps[0].token == turn.token && (steps[0].allowed <==> |steps| == 2)
        && (|steps| == 2 ==>
              exists job: Job, at: int :: job.id == steps[0].id && job.token == turn.token && steps[1] == Settlement(job, turn.answer, at)))
  }

  /** A pass that found a message and was not told to wait. */
  predicate GoesOn(steps: seq<Action>) {
    steps != [] && !steps[|steps| - 1].Release?
  }

  predicate BeforeDeadline(turns: seq<EmailTurn>, deadline: int) {
    forall i :: 0 <= i < |turns| ==> turns[i].at < deadline
  }

  /** One pass for each turn, in order; each but the last goes on, and the last one too if the loop is `going`. */
  ghost predicate Passes(own: seq<Action>, turns: seq<EmailTurn>, going: bool)
    decreases |turns|
  {
    if turns == [] then own == []
    else
      exists k: nat {:trigger own[..k]} :: k <= |own| && Passes(own[..k], turns[..|turns| - 1], true)
        && PassOf(own[k..], turns[|turns| - 1]) && (going ==> GoesOn(own[k..]))
  }

  lemma OnePassMore(own: seq<Action>, turns: seq<EmailTurn>, steps: seq<Action>, turn: EmailTurn, going: bool)
    requires Passes(own, turns, true) && PassOf(steps, turn) && (going ==> GoesOn(steps))
    ensures Passes(own + steps, turns + [turn], going)
  {
    hide PassOf, GoesOn;
    assert (own + steps)[..|own|] == own && (own + steps)[|own|..] == steps;
    assert (turns + [turn])[..|turns|] == turns;
  }

  datatype Kind = ScanStep | AttemptStep | DeliveredStep

  predicate IsKind(a: Action, kind: Kind) {
    match kind
    case ScanStep => a.ClaimEmail?
    case AttemptStep => a.ClaimEmail? && a.allowed
    case DeliveredStep => a.Finish? && a.outcome.Delivered?
  }

  function Tally(actions: seq<Action>, kind: Kind): nat
    decreases |actions|
  {
    if actions == [] then 0 else (if IsKind(actions[0], kind) then 1 else 0) + Tally(actions[1..], kind)
  }

  lemma {:induction false} TallyAppends(first: seq<Action>, second: seq<Action>, kind: Kind)
    ensures Tally(first + second, kind) == Tally(first, kind) + Tally(second, kind)
    decreases |first|
  {
    if first == [] {
      assert first + second == second;
    } else {
      assert (first + second)[1..] == first[1..] + second;
      TallyAppends(first[1..], second, kind);
    }
  }

  /** The counters of a delivery loop. */
  datatype Counters = Counters(sent: int, attempted: int, scanned: int)

  /** What they count: the worker's own actions. */
  function CountsOf(own: seq<Action>): Counters {
    Counters(Tally(own, DeliveredStep), Tally(own, AttemptStep), Tally(own, ScanStep))
  }

  lemma CountsAdd(own: seq<Action>, steps: seq<Action>)
    ensures var c, more := CountsOf(own), CountsOf(steps);
            CountsOf(own + steps) == Counters(c.sent + more.sent, c.attempted + more.attempted, c.scanned + more.scanned)
  {
    TallyAppends(own, steps, DeliveredStep);
    TallyAppends(own, steps, AttemptStep);
    TallyAppends(own, steps, ScanStep);
  }

  lemma PassCounts(steps: seq<Action>)
    requires |steps| <= 2
    requires steps != [] ==> steps[0].ClaimEmail? && (steps[0].allowed <==> |steps| == 2)
    requires |steps| == 2 ==> !steps[1].ClaimEmail?
    ensures CountsOf(steps) == Counters(if |steps| == 2 && IsKind(steps[1], DeliveredStep) then 1 else 0,
                                        if |steps| == 2 then 1 else 0, if steps != [] then 1 else 0)
  {
    if |steps| == 2 {
      assert steps == [steps[0], steps[1]] && steps[1..] == [steps[1]] && [steps[1]][1..] == [];
      assert Tally([steps[1]], DeliveredStep) == if IsKind(steps[1], DeliveredStep) then 1 else 0;
      assert Tally([steps[1]], AttemptStep) == 0 && Tally([steps[1]], ScanStep) == 0;
    } else if |steps| == 1 {
      assert steps[1..] == [];
      assert Tally([], DeliveredStep) == 0 && Tally([], AttemptStep) == 0 && Tally([], ScanStep) == 0;
    }
  }

  // ---------------------------------------------------------------- runs in pieces

  lemma StepSpends(w: World, a: Action)
    requires WorldOk(w)
    ensures w.used <= Step(w, a).used <= w.used + Spent(a)
  {
    hide EntryOk, EntryStep, EntryEnabled;
    if Enabled(w, a) && !Aborts(w, a) {
      UpdateKeepsWorld(w, a);
      match a
      case Enqueue(now, drafts) => InsertAllKeepsEntries(Updated(w, a), Drafts(drafts, now, w.clock));
      case QueueRevokes(now, targets) => InsertAllKeepsEntries(Updated(w, a), RevokeRows(targets, now, w.clock));
      case _ =>
    }
  }

  lemma {:induction false} RunSpends(w: World, actions: seq<Action>, tokens: set<Token>)
    requires WorldOk(w) && Foreign(actions, tokens) && w.used !! tokens
    ensures Run(w, actions).used !! tokens
    decreases |actions|
  {
    if actions != [] {
      assert actions[0] in actions;
      StepSpends(w, actions[0]);
      StepKeepsWorld(w, actions[0]);
      RunSpends(Step(w, actions[0]), actions[1..], tokens);
    }
  }

  lemma StepKeepsClaim(w: World, a: Action, id: int, k: nat)
    requires WorldOk(w) && id in w.entries && k < |w.entries[id].claims|
    ensures id in Step(w, a).entries && k < |Step(w, a).entries[id].claims|
    ensures var c, c' := w.entries[id].claims[k], Step(w, a).entries[id].claims[k];
            c'.token == c.token && c'.attempts == c.attempts && c'.at == c.at && c'.until == c.until
            && (c.open && !Settles(a, id, k) ==> c'.open)
  {
    StepAt(w, a, id);
    if Enabled(w, a) {
      assert EntryEnabled(id, w.entries[id], a, w.clock);
    }
  }

  predicate Settles(a: Action, id: int, k: nat) {
    (a.Finish? || a.Release?) && a.id == id && a.claim == k
  }

  /** What others do: a claim is settled by nobody but the worker that made it. */
  function ByOthers(actions: seq<Action>, id: int, k: nat): seq<Action>
    decreases |actions|
  {
    if actions == [] then []
    else if Settles(actions[0], id, k) then ByOthers(actions[1..], id, k)
    else [actions[0]] + ByOthers(actions[1..], id, k)
  }

  lemma {:induction false} OthersAreAmong(actions: seq<Action>, id: int, k: nat)
    ensures forall a :: a in ByOthers(actions, id, k) ==> a in actions && !Settles(a, id, k)
    decreases |actions|
  {
    if actions != [] {
      OthersAreAmong(actions[1..], id, k);
    }
  }

  lemma {:induction false} RunKeepsClaim(w: World, actions: seq<Action>, id: int, k: nat)
    requires WorldOk(w) && id in w.entries && k < |w.entries[id].claims|
    requires forall a :: a in actions ==> !Settles(a, id, k)
    ensures id in Run(w, actions).entries && k < |Run(w, actions).entries[id].claims|
    ensures var c, c' := w.entries[id].claims[k], Run(w, actions).entries[id].claims[k];
            c'.token == c.token && c'.attempts == c.attempts && c'.at == c.at && (c.open ==> c'.open)
    ensures w.clock <= Run(w, actions).clock
    decreases |actions|
  {
    if actions != [] {
      assert actions[0] in actions;
      StepKeepsClaim(w, actions[0], id, k);
      StepKeepsSchema(w, actions[0]);
      StepKeepsWorld(w, actions[0]);
      RunKeepsClaim(Step(w, actions[0]), actions[1..], id, k);
    }
  }

  // ---------------------------------------------------------------- steps of one row

  predicate OfOneRow(a: Action, id: int) {
    (a.ClaimEmail? || a.Finish? || a.Release?) && a.id == id
  }

  lemma OtherRowsStay(id: int, e: Entry, a: Action, clock: int)
    requires EntryEnabled(id, e, a, clock) && (a.ClaimEmail? || a.Finish? || a.Release?) && a.id != id
    ensures EntryStep(id, e, a, clock) == e
  {
  }

  lemma OneRowStep(w: World, a: Action, id: int)
    requires WorldOk(w) && Enabled(w, a) && !Aborts(w, a) && OfOneRow(a, id) && id in w.entries
    ensures EntryEnabled(id, w.entries[id], a, w.clock)
    ensures Step(w, a).entries == w.entries[id := EntryStep(id, w.entries[id], a, w.clock)]
    ensures Step(w, a).nextId == w.nextId && Step(w, a).clock == w.clock && Step(w, a).fenced == w.fenced
  {
    hide EntryOk, EntryStep, EntryEnabled;
    forall other | other in w.entries && other != id
      ensures EntryStep(other, w.entries[other], a, w.clock) == w.entries[other]
    {
      OtherRowsStay(other, w.entries[other], a, w.clock);
    }
  }

  /** How the table follows a step of one row. */
  lemma TableFollows(w: World, a: Action, id: int)
    requires WorldOk(w) && Enabled(w, a) && !Aborts(w, a) && OfOneRow(a, id) && id in w.entries
    ensures var after := EntryStep(id, w.entries[id], a, w.clock).row;
            Rows(Step(w, a)) == if after.Some? then Rows(w)[id := after.value] else Rows(w)
    ensures WorldOk(Step(w, a))
    ensures Step(w, a).nextId == w.nextId && Step(w, a).clock == w.clock && Step(w, a).fenced == w.fenced
  {
    hide EntryOk, EntryEnabled, Step, WorldOk;
    OneRowStep(w, a, id);
    StepKeepsWorld(w, a);
    var after := EntryStep(id, w.entries[id], a, w.clock).row;
    if after.Some? {
      StepKeepsKey(id, w.entries[id], a, w.clock);
    } else {
      NoRowIsDropped(id, w.entries[id], a, w.clock);
    }
  }

  lemma NoRowIsDropped(id: int, e: Entry, a: Action, clock: int)
    requires EntryEnabled(id, e, a, clock) && OfOneRow(a, id)
    ensures e.row.Some? ==> EntryStep(id, e, a, clock).row.Some?
  {
  }

  lemma ClaimEmailCommits(w: World, a: Action)
    requires WorldOk(w) && a.ClaimEmail? && a.now <= w.clock && a.token !in w.used
    requires HasRow(w, a.id) && Claimable(RowOf(w, a.id), Email, a.now)
    ensures Enabled(w, a)
    ensures Aborts(w, a) <==> w.fenced && !a.allowed && RowOf(w, a.id).state == Processing
  {
    if w.fenced {
      AbortsExactly(w, a);
      assert Ineligible(w, a, a.id) <==> !a.allowed;
    }
  }

  lemma SettleCommits(w: World, a: Action)
    requires WorldOk(w) && (a.Finish? || a.Release?) && a.id in w.entries
    requires OwnsClaim(w.entries[a.id], a.claim, a.now, w.clock)
    ensures Enabled(w, a) && !Aborts(w, a)
  {
    if w.fenced {
      AbortsExactly(w, a);
    }
  }

  lemma ClaimEmailFollows(w: World, a: Action)
    requires WorldOk(w) && a.ClaimEmail? && a.now <= w.clock && a.token !in w.used
    requires a.id in Rows(w) && Claimable(Rows(w)[a.id], Email, a.now)
    ensures Aborts(w, a) <==> w.fenced && !a.allowed && Rows(w)[a.id].state == Processing
    ensures !Aborts(w, a) ==>
              var row := Rows(w)[a.id];
              && WorldOk(Step(w, a))
              && Rows(Step(w, a)) == Rows(w)[a.id := if a.allowed then ClaimRow(row, a.token, a.now, w.clock)
                                                     else IneligibleRow(row, w.clock)]
              && Step(w, a).nextId == w.nextId && Step(w, a).clock == w.clock && Step(w, a).fenced == w.fenced
              && Step(w, a).used == w.used + {a.token}
              && (a.allowed ==> Owes(Step(w, a), Job(a.id, a.token, row.attempts, |w.entries[a.id].claims|), w.clock))
    ensures w.fenced ==> Fence(Rows(w)[a.id])
  {
    ClaimEmailCommits(w, a);
    if !Aborts(w, a) {
      OneRowStep(w, a, a.id);
      TableFollows(w, a, a.id);
    }
  }

  lemma SettleFollows(w: World, a: Action)
    requires WorldOk(w) && (a.Finish? || a.Release?) && a.id in w.entries
    requires OwnsClaim(w.entries[a.id], a.claim, a.now, w.clock)
    ensures WorldOk(Step(w, a))
    ensures var c := w.entries[a.id].claims[a.claim];
            Rows(Step(w, a)) == if a.id !in Rows(w) then Rows(w) else
              Rows(w)[a.id := if a.Finish? then FinishRow(Rows(w)[a.id], c.token, c.attempts, a.outcome, a.now, w.clock)
                              else ReleaseRow(Rows(w)[a.id], c.token, c.attempts, a.now, w.clock)]
    ensures Step(w, a).nextId == w.nextId && Step(w, a).clock == w.clock && Step(w, a).fenced == w.fenced
    ensures Step(w, a).used == w.used
  {
    SettleCommits(w, a);
    TableFollows(w, a, a.id);
  }

  // ---------------------------------------------------------------- steps of the whole table

  lemma RowsHaveEntries(w: World)
    ensures forall id :: id in Rows(w) ==> id in w.entries
  {
  }

  lemma TableHasRows(w: World)
    ensures forall id :: HasRow(w, id) ==> id in Rows(w) && Rows(w)[id] == RowOf(w, id)
  {
  }

  function WaitingOf(table: map<int, Row>, source: string): set<int> {
    set id | id in table && table[id].source == Some(source) && (table[id].state == Pending || table[id].state == RetryWaiting)
  }

  /** Of the rows that were there, exactly those of the source that waited have changed: they are CANCELED. */
  predicate CanceledIn(before: map<int, Row>, after: map<int, Row>, source: string, clock: int) {
    forall id :: id in before ==>
      && id in after && (after[id] != before[id] <==> id in WaitingOf(before, source))
      && (after[id] != before[id] ==> after[id] == before[id].(state := Canceled, updatedAt := clock))
  }

  /** The rows that were not there revoke one target each, for three days from `clock` on. */
  predicate RevocationsIn(before: set<int>, after: map<int, Row>, targets: seq<Target>, clock: int) {
    && (forall id :: id in after && id !in before ==>
          exists t :: t in targets
            && after[id] == Row(t.user, Push, t.device, Revoke(t.id), None, Pending, 0, clock, clock + 3 * 24 * 3600 * SECOND,
                                None, None, clock))
    && (forall t :: t in targets ==> TableHasKey(after, Revoke(t.id)))
  }

  /** A sweep at `now` cancels exactly the overdue rows of one set, and deletes exactly the forgotten ones of another. */
  predicate SweptIn(before: map<int, Row>, after: map<int, Row>, now: int, expire: set<int>, purge: set<int>, clock: int) {
    && after.Keys == (set id | id in before && !(id in purge && Forgotten(before[id], now)))
    && forall id :: id in after ==>
         && id in before && (after[id] != before[id] <==> id in expire && Overdue(before[id], now))
         && (after[id] != before[id] ==>
               after[id] == before[id].(state := Canceled, token := None, leaseUntil := None, updatedAt := clock))
  }

  /** One row is held under a new token, or canceled for its user; the others stay. */
  predicate TakenIn(before: map<int, Row>, after: map<int, Row>, id: int, claimed: bool, token: Token, now: int, clock: int) {
    && id in before && id in after && after == before[id := after[id]]
    && if claimed then HeldFor(before[id], after[id], token, now, clock)
       else after[id] == before[id].(state := Canceled, updatedAt := clock)
  }

  /** A batch canceled and then a batch deleted, both at one time. */
  lemma SweepsJoin(before: map<int, Row>, middle: map<int, Row>, after: map<int, Row>, now: int, expire: set<int>, purge: set<int>)
    requires SweptIn(before, middle, now, expire, {}, now) && SweptIn(middle, after, now, {}, purge, now)
    ensures SweptIn(before, after, now, expire, purge, now)
  {
    assert middle.Keys == before.Keys;
    forall id | id in before
      ensures Forgotten(middle[id], now) <==> Forgotten(before[id], now)
    {
    }
  }

  /** The table after the inserts of a recall. */
  lemma QueuedRows(w: World, now: int, targets: seq<Target>)
    requires WorldOk(w) && Enabled(w, QueueRevokes(now, targets)) && now == w.clock
    ensures var table, after := Rows(w), Rows(Step(w, QueueRevokes(now, targets)));
            && (forall id :: id in table ==> id in after && after[id] == table[id])
            && RevocationsIn(table.Keys, after, targets, w.clock)
  {
    hide WorldOk, Enabled, Step;
    QueueRevokesIff(w, now, targets);
    var w' := Step(w, QueueRevokes(now, targets));
    RowsHaveEntries(w);
    TableHasRows(w');
    forall t | t in targets
      ensures TableHasKey(Rows(w'), Revoke(t.id))
    {
      var id :| id in w'.entries && HasRow(w', id) && RowOf(w', id).key == Revoke(t.id);
      assert id in Rows(w') && Rows(w')[id].key == Revoke(t.id);
    }
  }

  /** The claim that a held row was taken by counted the attempts the row has. */
  lemma HeldAttempts(w: World, job: Job, now: int)
    requires WorldOk(w) && Owes(w, job, now) && job.id in Rows(w) && Rows(w)[job.id].token == Some(job.token)
    ensures Rows(w)[job.id].attempts == job.attempts
  {
    var e := w.entries[job.id];
    assert EntryOk(e, w.clock, w.used);
    OnlyTheLastClaimHolds(e, job.claim, w.clock, w.used);
  }

  predicate Sweeps(a: Action) {
    a.CancelPending? || a.Maintain?
  }

  /** What a sweep leaves of one row, or nothing. */
  function Swept(id: int, r: Row, a: Action, clock: int): Option<Row>
    requires Sweeps(a)
  {
    match a
    case CancelPending(s) => Some(CancelRow(r, s, clock))
    case Maintain(now, expire, purge) =>
      var kept := if id in expire then ExpireRow(r, now, clock) else r;
      if id in purge && Purgeable(kept, now) then None else Some(kept)
  }

  lemma SweepCommits(w: World, a: Action)
    requires WorldOk(w) && Sweeps(a) && (a.Maintain? ==> a.now <= w.clock)
    ensures Enabled(w, a) && !Aborts(w, a)
  {
    if w.fenced {
      AbortsExactly(w, a);
    }
  }

  lemma SweptEntry(id: int, e: Entry, a: Action, clock: int)
    requires Sweeps(a) && EntryEnabled(id, e, a, clock)
    ensures EntryStep(id, e, a, clock).row == if e.row.Some? then Swept(id, e.row.value, a, clock) else None
  {
  }

  lemma SweepFollows(w: World, a: Action)
    requires WorldOk(w) && Sweeps(a) && (a.Maintain? ==> a.now <= w.clock)
    ensures WorldOk(Step(w, a))
    ensures Rows(Step(w, a)) == map id | id in Rows(w) && Swept(id, Rows(w)[id], a, w.clock).Some?
                                  :: Swept(id, Rows(w)[id], a, w.clock).value
    ensures Step(w, a).nextId == w.nextId && Step(w, a).clock == w.clock && Step(w, a).fenced == w.fenced && Step(w, a).used == w.used
  {
    hide EntryOk, EntryStep, EntryEnabled, Swept;
    SweepCommits(w, a);
    StepKeepsWorld(w, a);
    forall id | id in w.entries
      ensures Step(w, a).entries[id].row
              == if HasRow(w, id) then Swept(id, RowOf(w, id), a, w.clock) else None
    {
      SweptEntry(id, w.entries[id], a, w.clock);
    }
  }

  predicate TableHasKey(table: map<int, Row>, key: Key) {
    exists id :: id in table && table[id].key == key
  }

  lemma InsertFollows(w: World, r: Row)
    requires forall id :: id in w.entries ==> id < w.nextId
    ensures KeyTaken(w, r.key) <==> TableHasKey(Rows(w), r.key)
    ensures Rows(Insert(w, r)) == if TableHasKey(Rows(w), r.key) then Rows(w) else Rows(w)[w.nextId := r]
    ensures forall id :: id in Insert(w, r).entries ==> id < Insert(w, r).nextId
  {
    if KeyTaken(w, r.key) {
      var id :| id in w.entries && HasRow(w, id) && RowOf(w, id).key == r.key;
      assert id in Rows(w) && Rows(w)[id].key == r.key;
    }
  }

  lemma {:induction false} InsertAllAppends(w: World, rows: seq<Row>, r: Row)
    ensures InsertAll(w, rows + [r]) == Insert(InsertAll(w, rows), r)
    decreases |rows|
  {
    if rows != [] {
      assert (rows + [r])[1..] == rows[1..] + [r];
      InsertAllAppends(Insert(w, rows[0]), rows[1..], r);
    } else {
      assert rows + [r] == [r];
    }
  }

  lemma QueueFollows(w: World, now: int, targets: seq<Target>)
    requires WorldOk(w) && now <= w.clock && forall t :: t in targets ==> Names(w, t)
    ensures var a := QueueRevokes(now, targets);
            && Enabled(w, a) && WorldOk(Step(w, a)) && Step(w, a) == InsertAll(w, RevokeRows(targets, now, w.clock))
            && Step(w, a).clock == w.clock && Step(w, a).fenced == w.fenced && Step(w, a).used == w.used
    ensures forall id :: id in w.entries ==> id < w.nextId
  {
    hide EntryOk, EntryStep, EntryEnabled, Update;
    QueueOnlyInserts(w, now, targets);
    StepKeepsWorld(w, QueueRevokes(now, targets));
    IdsAreBelow(w);
    InsertAllKeepsEntries(w, RevokeRows(targets, now, w.clock));
  }

  predicate RevocableRow(r: Row, source: string) {
    r.source == Some(source) && r.channel == Push && (r.state == Sent || r.state == Processing)
  }

  lemma SelectFollows(w: World, source: string, targets: seq<Target>)
    requires forall t :: t in targets ==>
               && t.id in Rows(w) && RevocableRow(Rows(w)[t.id], source)
               && t == Target(t.id, Rows(w)[t.id].user, Rows(w)[t.id].device)
    requires forall id :: id in Rows(w) && RevocableRow(Rows(w)[id], source) ==>
               Target(id, Rows(w)[id].user, Rows(w)[id].device) in targets
    ensures Selected(w, source, targets)
  {
    TableHasRows(w);
  }

  /** What the select read stays true of the rows that are still there. */
  lemma NamesLast(w: World, actions: seq<Action>, source: string, targets: seq<Target>)
    requires WorldOk(w) && Selected(w, source, targets)
    ensures forall t :: t in targets ==> Names(Run(w, actions), t)
  {
    hide WorldOk, Run;
    forall t | t in targets
      ensures Names(Run(w, actions), t)
    {
      EntriesOf(w, t.id, t.id);
      RunKeepsIdentity(w, actions, t.id);
    }
  }

  // ---------------------------------------------------------------- the service

  class NotificationChannels {
    var table: map<int, Row>
    var nextId: int
    var clock: int
    var fenced: bool
    /** The same table, with the history of its rows. */
    var world: World

    ghost predicate Valid()
      reads this
    {
      && WorldOk(world)
      && table == Rows(world)
      && nextId == world.nextId && clock == world.clock && fenced == world.fenced
    }

    constructor (start: int, withFence: bool)
      ensures Valid() && world == Empty(start, withFence)
    {
      table := map[];
      nextId := 0;
      clock := start;
      fenced := withFence;
      world := Empty(start, withFence);
    }

    /** `_claimable` with `ORDER BY next_attempt_at, id LIMIT 1 FOR UPDATE SKIP LOCKED`. */
    method SelectDue(channel: Channel, now: int, locked: set<int>) returns (due: Option<int>)
      ensures due.None? ==> NothingDue(table, channel, now, locked)
      ensures due.Some? ==> FirstDue(table, channel, now, locked, due.value)
    {
      due := None;
      var rest := table.Keys;
      while exists id :: id in rest
        invariant rest <= table.Keys
        invariant due.None? ==> forall id :: id in table && id !in rest && id !in locked ==> !Claimable(table[id], channel, now)
        invariant due.Some? ==>
                    && due.value in table && due.value !in locked && Claimable(table[due.value], channel, now)
                    && forall id :: id in table && id !in rest && id !in locked && Claimable(table[id], channel, now) ==>
                         Before(table, due.value, id)
        decreases rest
      {
        var id :| id in rest;
        rest := rest - {id};
        if id !in locked && Claimable(table[id], channel, now) && (due.None? || Before(table, id, due.value)) {
          due := Some(id);
        }
      }
    }

    /** The claiming transaction of `_deliver_email`. */
    method ClaimEmail(now: int, token: Token, locked: set<int>, optedOut: set<int>) returns (result: ClaimResult, action: Action)
      requires Valid() && now <= clock && token !in world.used
      modifies this
      ensures Valid() && clock == old(clock) && fenced == old(fenced)
      ensures world.used <= old(world).used + {token}
      ensures result.NoneDue? ==>
                world == old(world) && NothingDue(old(table), Email, now, locked)
      ensures result.Claimed? || result.Skipped? ==>
                && world == Step(old(world), action) && action.ClaimEmail?
                && action == OutboxModel.ClaimEmail(now, action.id, token, result.Claimed?)
                && FirstDue(old(table), Email, now, locked, action.id)
                && (action.allowed <==> old(table)[action.id].user !in optedOut)
      ensures result.Claimed? ==>
                var id := result.job.id;
                && action == OutboxModel.ClaimEmail(now, id, token, true)
                && id in old(world).entries && result.job.claim == |old(world).entries[id].claims|
                && result.job.token == token && Owes(world, result.job, clock)
      ensures result.Claimed? || result.Skipped? ==> TakenIn(old(table), table, action.id, result.Claimed?, token, now, clock)
      ensures result.Aborted? ==>
                && world == old(world) && table == old(table) && fenced
                && exists id :: id in table && FirstDue(table, Email, now, locked, id)
                     && table[id].user in optedOut && table[id].state == Processing
    {
      hide WorldOk, Step, Rows, Enabled, Aborts, Owes;
      var due := SelectDue(Email, now, locked);
      if due.None? {
        return NoneDue, Tick(0);
      }
      var id := due.value;
      var row := table[id];
      var allowed := row.user !in optedOut;
      action := OutboxModel.ClaimEmail(now, id, token, allowed);
      ClaimEmailFollows(world, action);
      RowsHaveEntries(world);
      if !allowed {
        var canceled := row.(state := Canceled, updatedAt := clock);
        if fenced && !Fence(canceled) {
          return Aborted, Tick(0);
        }
        table := table[id := canceled];
        result := Skipped;
      } else {
        table := table[id := row.(state := Processing, token := Some(token), leaseUntil := Some(now + LEASE), updatedAt := clock)];
        result := Claimed(Job(id, token, row.attempts, |world.entries[id].claims|));
      }
      world := Step(world, action);
    }

    /** `_finish`: records the outcome if the row is still held under this job's token. */
    method Finish(job: Job, outcome: Outcome, now: int)
      requires Valid() && Owes(world, job, now)
      modifies this
      ensures Valid() && clock == old(clock) && fenced == old(fenced)
      ensures world == Step(old(world), OutboxModel.Finish(now, job.id, job.claim, outcome))
      ensures world.used == old(world).used
      ensures job.id !in old(table) ==> table == old(table)
      ensures job.id in old(table) ==>
                && job.id in table && table == old(table)[job.id := table[job.id]]
                && if old(table)[job.id].state == Processing && old(table)[job.id].token == Some(job.token)
                   then Recorded(old(table)[job.id], table[job.id], outcome, now, clock)
                   else table[job.id] == old(table)[job.id]
    {
      hide WorldOk, Step, Rows, Backoff, Enabled, Aborts;
      var action := OutboxModel.Finish(now, job.id, job.claim, outcome);
      SettleFollows(world, action);
      if job.id in table && table[job.id].token == Some(job.token) {
        HeldAttempts(world, job, now);
      }
      if job.id in table {
        var row := table[job.id];
        if row.state == Processing && row.token == Some(job.token) {
          row := row.(attempts := job.attempts + 1, token := None, leaseUntil := None, updatedAt := clock);
          match outcome {
            case Delivered =>
              row := row.(state := Sent);
            case Undelivered(retryable) =>
              var retry := retryable && job.attempts + 1 < MAX_ATTEMPTS;
              row := row.(state := if retry then RetryWaiting else Failed,
                          nextAttemptAt := now + Backoff(job.attempts + 1));
          }
          table := table[job.id := row];
        }
      }
      world := Step(world, action);
    }

    /** The release after the sender deferred the message, guarded by id and token alone. */
    method ReleaseDeferred(job: Job, now: int)
      requires Valid() && Owes(world, job, now)
      modifies this
      ensures Valid() && clock == old(clock) && fenced == old(fenced)
      ensures world == Step(old(world), OutboxModel.Release(now, job.id, job.claim))
      ensures world.used == old(world).used
      ensures job.id !in old(table) ==> table == old(table)
      ensures job.id in old(table) ==>
                && job.id in table && table == old(table)[job.id := table[job.id]]
                && if old(table)[job.id].token == Some(job.token) then Deferred(old(table)[job.id], table[job.id], now, clock)
                   else table[job.id] == old(table)[job.id]
    {
      hide WorldOk, Step, Rows, Backoff, Enabled, Aborts;
      var action := OutboxModel.Release(now, job.id, job.claim);
      SettleFollows(world, action);
      if job.id in table && table[job.id].token == Some(job.token) {
        HeldAttempts(world, job, now);
      }
      if job.id in table && table[job.id].token == Some(job.token) {
        table := table[job.id := table[job.id].(
          state := if job.attempts == 0 then Pending else RetryWaiting,
          nextAttemptAt := now, token := None, leaseUntil := None, updatedAt := clock)];
      }
      world := Step(world, action);
    }

    /** `cancel_pending`. */
    method CancelPending(source: string) returns (canceled: nat)
      requires Valid()
      modifies this
      ensures Valid() && world == Step(old(world), OutboxModel.CancelPending(source))
      ensures clock == old(clock) && world.used == old(world).used
      ensures table.Keys == old(table).Keys && CanceledIn(old(table), table, source, clock)
      ensures canceled == |WaitingOf(old(table), source)|
    {
      hide WorldOk, Step, Rows;
      SweepFollows(world, OutboxModel.CancelPending(source));
      canceled := |WaitingOf(table, source)|;
      table := map id | id in table :: CancelRow(table[id], source, clock);
      world := Step(world, OutboxModel.CancelPending(source));
    }

    /** Statements of `_maintain`: rows that expired are canceled, rows past retention are deleted. */
    method Sweep(now: int, expire: set<int>, purge: set<int>)
      requires Valid() && now <= clock
      modifies this
      ensures Valid() && world == Step(old(world), OutboxModel.Maintain(now, expire, purge))
      ensures clock == old(clock) && world.used == old(world).used
      ensures SweptIn(old(table), table, now, expire, purge, clock)
    {
      hide WorldOk, Step, Rows;
      SweepFollows(world, OutboxModel.Maintain(now, expire, purge));
      table := map id | id in table :: if id in expire then ExpireRow(table[id], now, clock) else table[id];
      table := map id | id in table && !(id in purge && Purgeable(table[id], now)) :: table[id];
      world := Step(world, OutboxModel.Maintain(now, expire, purge));
    }

    /** `_maintain`: expire one batch, purge another; others commit in between. */
    method Maintain(expire: set<int>, between: seq<Action>, purge: set<int>, ghost tokens: set<Token>)
      requires Valid() && Foreign(between, tokens) && world.used !! tokens
      modifies this
      ensures Valid() && world.used !! tokens
      ensures var now := old(clock);
              world == Step(Run(Step(old(world), OutboxModel.Maintain(now, expire, {})), between), OutboxModel.Maintain(now, {}, purge))
      ensures between == [] ==> clock == old(clock) && SweptIn(old(table), table, clock, expire, purge, clock)
    {
      hide WorldOk, Step, Run, Rows, Foreign, SweptIn;
      var now := clock;
      Sweep(now, expire, {});
      ghost var middle := world;
      Interfere(between, tokens);
      RunNone(middle);
      Sweep(now, {}, purge);
      if between == [] {
        SweepsJoin(old(table), Rows(middle), table, now, expire, purge);
      }
    }

    /** The select of `recall`: the pushes of the source that are sent or being sent, each once. */
    method SelectRevocable(source: string) returns (targets: seq<Target>)
      ensures forall t :: t in targets ==>
                t.id in table && RevocableRow(table[t.id], source) && t == Target(t.id, table[t.id].user, table[t.id].device)
      ensures forall id :: id in table && RevocableRow(table[id], source) ==>
                Target(id, table[id].user, table[id].device) in targets
      ensures forall i, j :: 0 <= i < j < |targets| ==> targets[i].id != targets[j].id
    {
      targets := [];
      var rest := table.Keys;
      while exists id :: id in rest
        invariant rest <= table.Keys
        invariant forall t :: t in targets ==>
                    && t.id in table && t.id !in rest && RevocableRow(table[t.id], source)
                    && t == Target(t.id, table[t.id].user, table[t.id].device)
        invariant forall id :: id in table && id !in rest && RevocableRow(table[id], source) ==>
                    Target(id, table[id].user, table[id].device) in targets
        invariant forall i, j :: 0 <= i < j < |targets| ==> targets[i].id != targets[j].id
        decreases rest
      {
        var id :| id in rest;
        rest := rest - {id};
        if RevocableRow(table[id], source) {
          targets := targets + [Target(id, table[id].user, table[id].device)];
        }
      }
    }

    /**
     `recall`: cancels what waits, reads the pushes sent or being sent, and queues one revocation for each.
     Others commit between its statements.
     */
    method Recall(source: string, between: seq<Action>, during: seq<Action>, ghost tokens: set<Token>)
      returns (canceled: nat, revoked: nat, ghost recalling: Recalling)
      requires Valid() && Foreign(between, tokens) && Foreign(during, tokens) && world.used !! tokens
      modifies this
      ensures Valid() && world.used !! tokens
      ensures recalling == Recalling(source, between, during, old(clock), recalling.targets)
      ensures world == AfterRecall(old(world), recalling)
      ensures Selected(AtSelect(old(world), recalling), source, recalling.targets)
      ensures old(clock) <= AtInsert(old(world), recalling).clock
      ensures canceled == |WaitingOf(old(table), source)|
      ensures between == [] && during == [] ==>
                CanceledIn(old(table), table, source, clock) && RevocationsIn(old(table).Keys, table, recalling.targets, clock)
      ensures nextId == AtInsert(old(world), recalling).nextId + revoked
    {
      hide WorldOk, Step, Run, CancelRow, Rows, Foreign, Selected, Names, InsertAll, RevokeRows, Enabled, RevocationsIn, WaitingOf;
      var now := clock;
      canceled := CancelPending(source);
      ghost var first := world;
      Interfere(between, tokens);
      ghost var select := world;
      var targets := SelectRevocable(source);
      SelectFollows(select, source, targets);
      ClockAdvances(world, during);
      NamesLast(select, during, source, targets);
      Interfere(during, tokens);
      recalling := Recalling(source, between, during, now, targets);
      QueueFollows(world, now, targets);
      RunNone(first);
      if between == [] && during == [] {
        QueuedRows(world, now, targets);
      }
      revoked := InsertRevokes(targets, now);
      world := Step(world, QueueRevokes(now, targets));
    }

    /** The inserts of a recall, `ON CONFLICT DO NOTHING` on the dedupe key. */
    method InsertRevokes(targets: seq<Target>, now: int) returns (revoked: nat)
      requires table == Rows(world) && nextId == world.nextId && clock == world.clock
      requires forall id :: id in world.entries ==> id < world.nextId
      modifies this`table, this`nextId
      ensures table == Rows(InsertAll(world, RevokeRows(targets, now, clock)))
      ensures nextId == InsertAll(world, RevokeRows(targets, now, clock)).nextId == old(nextId) + revoked
    {
      revoked := 0;
      ghost var rows := RevokeRows(targets, now, clock);
      for i := 0 to |targets|
        invariant table == Rows(InsertAll(world, rows[..i]))
        invariant nextId == InsertAll(world, rows[..i]).nextId == old(nextId) + revoked
        invariant forall id :: id in InsertAll(world, rows[..i]).entries ==> id < InsertAll(world, rows[..i]).nextId
      {
        assert rows[..i + 1] == rows[..i] + [rows[i]];
        InsertAllAppends(world, rows[..i], rows[i]);
        InsertFollows(InsertAll(world, rows[..i]), rows[i]);
        if !TableHasKey(table, Revoke(targets[i].id)) {
          table := table[nextId := RevokeRow(targets[i], now, clock)];
          nextId := nextId + 1;
          revoked := revoked + 1;
        }
      }
      assert rows[..|targets|] == rows;
    }

    /** Other transactions commit, and time passes. */
    method Interfere(actions: seq<Action>, ghost tokens: set<Token>)
      requires Valid() && Foreign(actions, tokens) && world.used !! tokens
      modifies this
      ensures Valid() && world == Run(old(world), actions) && old(clock) <= clock
      ensures world.used !! tokens
    {
      hide WorldOk, Step, Run, Foreign;
      RunKeepsWorld(world, actions);
      RunSpends(world, actions, tokens);
      ClockAdvances(world, actions);
      world := Run(world, actions);
      table, nextId, clock, fenced := Rows(world), world.nextId, world.clock, world.fenced;
    }

    /** Others act while the worker owes `job`. */
    method InterfereDuring(job: Job, since: int, actions: seq<Action>, ghost tokens: set<Token>) returns (done: seq<Action>)
      requires Valid() && Owes(world, job, since) && since <= clock && Foreign(actions, tokens) && world.used !! tokens
      modifies this
      ensures Valid() && world == Run(old(world), done) && old(clock) <= clock
      ensures world.used !! tokens && (forall now :: since <= now <= clock ==> Owes(world, job, now))
    {
      hide WorldOk, Step, Run;
      done := ByOthers(actions, job.id, job.claim);
      OthersAreAmong(actions, job.id, job.claim);
      RunKeepsClaim(world, done, job.id, job.claim);
      Interfere(done, tokens);
    }

    /** The transaction after the sender answered. */
    method Settle(job: Job, answer: SendResult, now: int)
      requires Valid() && Owes(world, job, now)
      modifies this
      ensures Valid() && world == Step(old(world), Settlement(job, answer, now)) && world.used == old(world).used
    {
      hide WorldOk, Step, Owes;
      match answer
      case RateDeferred => ReleaseDeferred(job, now);
      case Accepted => Finish(job, Delivered, now);
      case Rejected(retryable) => Finish(job, Undelivered(retryable), now);
    }

    /** Sending a claimed message and recording the answer. */
    method SendAndSettle(job: Job, turn: EmailTurn, ghost tokens: set<Token>) returns (done: seq<Action>, settlement: Action)
      requires Valid() && Owes(world, job, clock) && world.used !! tokens
      requires Foreign(turn.during, tokens) && Foreign(turn.settling, tokens)
      modifies this
      ensures Valid() && world == Run(old(world), done) && world.used !! tokens
      ensures Within([settlement], done) && exists at :: settlement == Settlement(job, turn.answer, at)
    {
      hide WorldOk, Step, Run, Owes, Foreign;
      done := InterfereDuring(job, clock, turn.during, tokens);
      var now := clock;
      var others := InterfereDuring(job, now, turn.settling, tokens);
      RunAppends(old(world), done, others);
      done, settlement := done + others, Settlement(job, turn.answer, now);
      RunExtends(old(world), done, settlement);
      Settle(job, turn.answer, now);
      WithinLast(done, settlement);
      done := done + [settlement];
    }

    /** One pass of the e-mail loop; `own` is what the worker itself committed in it. */
    method EmailPass(turn: EmailTurn, ghost tokens: set<Token>)
      returns (result: ClaimResult, done: seq<Action>, own: seq<Action>)
      requires Valid() && turn.token !in tokens && world.used !! {turn.token} + tokens
      requires Foreign(turn.lag, {turn.token} + tokens) && Foreign(turn.during, tokens) && Foreign(turn.settling, tokens)
      modifies this
      ensures Valid() && world == Run(old(world), done) && world.used !! tokens
      ensures Within(own, done) && PassOf(own, turn)
      ensures own == [] <==> result.NoneDue? || result.Aborted?
      ensures own != [] ==> Chose(old(world), turn, result, own)
      ensures if result.Claimed? then |own| == 2 else |own| <= 1
      ensures own != [] ==> own[0].ClaimEmail? && own[0].allowed == result.Claimed?
      ensures result.Claimed? ==> !own[1].ClaimEmail? && (IsKind(own[1], DeliveredStep) <==> turn.answer.Accepted?)
      ensures GoesOn(own) <==> result.Skipped? || (result.Claimed? && !turn.answer.RateDeferred?)
      ensures GoesOn(own) || Stopped(old(world), done, own, turn, result.Aborted?)
    {
      hide WorldOk, Step, Run, Owes, Foreign, HeldFor;
      var now := clock;
      Interfere(turn.lag, {turn.token} + tokens);
      done, own := turn.lag, [];
      var action;
      result, action := ClaimEmail(now, turn.token, turn.locked, turn.optedOut);
      if result.NoneDue? || result.Aborted? {
        RunNone(old(world));
        assert turn.lag[..0] == [] && turn.lag[0..] == turn.lag;
        return;
      }
      RunExtends(old(world), done, action);
      WithinLast(done, action);
      done, own := done + [action], [action];
      if result.Skipped? {
        return;
      }
      var others, settlement := SendAndSettle(result.job, turn, tokens);
      RunAppends(old(world), done, others);
      WithinAppends(own, done, [settlement], others);
      done, own := done + others, own + [settlement];
    }

    /** The same pass as the loop sees it: what it adds to the counters, and whether it goes on. */
    method CountedPass(turn: EmailTurn, ghost tokens: set<Token>)
      returns (going: bool, aborted: bool, more: Counters, done: seq<Action>, own: seq<Action>)
      requires Valid() && turn.token !in tokens && world.used !! {turn.token} + tokens
      requires Foreign(turn.lag, {turn.token} + tokens) && Foreign(turn.during, tokens) && Foreign(turn.settling, tokens)
      modifies this
      ensures Valid() && world == Run(old(world), done) && world.used !! tokens
      ensures Within(own, done) && PassOf(own, turn) && going == GoesOn(own)
      ensures !going ==> Stopped(old(world), done, own, turn, aborted)
      ensures aborted ==> own == [] && !going
      ensures more == CountsOf(own) && 0 <= more.sent <= more.attempted <= more.scanned <= 1
    {
      hide WorldOk, Step, Run, Within, PassOf, GoesOn, Foreign, CountsOf, Chose, Stopped, Rows;
      var result;
      result, done, own := EmailPass(turn, tokens);
      PassCounts(own);
      going, aborted := result.Skipped? || (result.Claimed? && !turn.answer.RateDeferred?), result.Aborted?;
      more := Counters(if result.Claimed? && turn.answer.Accepted? then 1 else 0, if result.Claimed? then 1 else 0,
                       if result.Claimed? || result.Skipped? then 1 else 0);
    }

    /**
     `_deliver_email`: claim, send, settle, until nothing is due, a limit or the deadline is reached, the
     sender defers, or a claim aborts, and no earlier. Between any two of its own transactions others commit
     what they like. What it does is a run of the machine, its own actions come in it in order, pass by pass,
     and its counters count them.
     */
    method DeliverEmail(turns: seq<EmailTurn>, maxPerRun: nat, deadline: int)
      returns (sent: int, attempted: int, scanned: int, aborted: bool, passes: nat, trace: seq<Action>, own: seq<Action>)
      requires Valid() && FreshTurns(turns) && world.used !! TurnTokens(turns)
      modifies this
      ensures Valid() && world == Run(old(world), trace) && Within(own, trace)
      ensures passes <= |turns| && Passes(own, turns[..passes], false) && BeforeDeadline(turns[..passes], deadline)
      ensures Counters(sent, attempted, scanned) == CountsOf(own)
      ensures 0 <= sent <= attempted <= scanned && attempted <= maxPerRun && scanned <= 4 * maxPerRun
      ensures aborted || (passes < |turns| && turns[passes].at < deadline && attempted < maxPerRun && scanned < 4 * maxPerRun) ==>
                passes > 0 && Stopped(old(world), trace, own, turns[passes - 1], aborted)
    {
      sent, attempted, scanned, aborted, passes, trace, own := 0, 0, 0, false, 0, [], [];
      var going := true;
      NoPassYet(world, turns, deadline);
      hide *;
      while going && passes < |turns| && attempted < maxPerRun && scanned < 4 * maxPerRun && turns[passes].at < deadline
        invariant 0 <= passes <= |turns|
        invariant Valid() && world == Run(old(world), trace) && Progress(old(world), trace, own, turns[..passes], deadline, going, aborted)
        invariant (aborted ==> !going) && Counters(sent, attempted, scanned) == CountsOf(own)
        invariant 0 <= sent <= attempted <= scanned && attempted <= maxPerRun && scanned <= 4 * maxPerRun
        invariant going ==> world.used !! TurnTokens(turns[passes..])
        decreases |turns| - passes
      {
        var turn := turns[passes];
        ForeignTurn(turns, passes);
        var more, done, steps;
        going, aborted, more, done, steps := CountedPass(turn, TurnTokens(turns[passes + 1..]));
        PassAdds(old(world), trace, own, turns[..passes], done, steps, turn, deadline, aborted);
        trace, own, passes := trace + done, own + steps, passes + 1;
        sent, attempted, scanned := sent + more.sent, attempted + more.attempted, scanned + more.scanned;
      }
      ProgressMeans(old(world), trace, own, turns[..passes], deadline, going, aborted);
    }
  }

  lemma ProgressMeans(
    start: World, trace: seq<Action>, own: seq<Action>, turns: seq<EmailTurn>, deadline: int, going: bool, aborted: bool)
    requires Progress(start, trace, own, turns, deadline, going, aborted)
    ensures Within(own, trace) && Passes(own, turns, false) && BeforeDeadline(turns, deadline)
    ensures !going ==> turns != [] && Stopped(start, trace, own, turns[|turns| - 1], aborted)
  {
    hide Within, Stopped;
    PassesEnd(own, turns, going);
  }

  lemma PassesEnd(own: seq<Action>, turns: seq<EmailTurn>, going: bool)
    requires Passes(own, turns, going)
    ensures Passes(own, turns, false)
  {
  }

  lemma NoPassYet(start: World, turns: seq<EmailTurn>, deadline: int)
    ensures Progress(start, [], [], turns[..0], deadline, true, false) && Run(start, []) == start
    ensures turns[0..] == turns && CountsOf([]) == Counters(0, 0, 0)
  {
  }
}
