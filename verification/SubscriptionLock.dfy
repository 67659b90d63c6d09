/**
 The re-entrant subscription mutation lock of one user, on one Redis key.

 Redis scripts (acquire, extend, owned, release) are atomic and compare the stored token; a key lives
 up to and including its expiry. Tasks, their heartbeats and the passage of time interleave freely. Time is
 in milliseconds.
 */
module SubscriptionLock {
  import opened Common

  const LEASE := 300_000

  type Token = nat
  type Task = int

  datatype Key = Key(token: Token, until: int)

  /** `completed`: the body ran to its end and the lock was still owned then. `normal`: `hold` returned without raising. */
  datatype Phase = Holding | Closing(completed: bool) | Releasing(completed: bool) | Ended(normal: bool)

  /** An outermost `hold`, named by its token; `period` is its place in the key's history. */
  datatype Session = Session(task: Task, period: nat, acquired: int, leaseError: bool, phase: Phase, checked: int)

  /** A stretch of time, from `begin` to just before `end`, during which the key held one token. */
  datatype Period = Period(token: Token, begin: int, end: int)

  datatype Held = Held(token: Token, depth: nat)

  datatype World = World(now: int, key: Option<Key>, sessions: map<Token, Session>, held: map<Task, Held>, periods: seq<Period>)

  datatype Action =
    | Tick(ms: nat)
    | Acquire(task: Task, token: Token)
    | Reenter(task: Task)
    | Leave(task: Task)
    | Beat(token: Token)
    | BeatError(token: Token)
    | Finish(token: Token)
    | Abort(token: Token)
    | Close(token: Token)
    | Release(token: Token)

  function Start(now: int): World {
    World(now, None, map[], map[], [])
  }

  predicate Owned(w: World, t: Token) {
    w.key.Some? && w.key.value.token == t && w.now <= w.key.value.until
  }

  predicate Free(w: World) {
    w.key.None? || w.key.value.until < w.now
  }

  function SetPhase(w: World, t: Token, phase: Phase): World
    requires t in w.sessions
  {
    w.(sessions := w.sessions[t := w.sessions[t].(phase := phase)],
       held := if phase.Ended? then w.held - {w.sessions[t].task} else w.held)
  }

  /** In the body of the outermost `hold`, every nested one having returned. */
  predicate InBody(w: World, s: Session) {
    s.phase.Holding? && s.task in w.held && w.held[s.task].depth == 1
  }

  predicate InPhase(w: World, a: Action) {
    match a
    case Tick(_) => true
    case Acquire(task, token) => task !in w.held && token !in w.sessions
    case Reenter(task) => task in w.held
    case Leave(task) => task in w.held && w.held[task].depth > 1
    case Beat(token) => token in w.sessions
    case BeatError(token) => token in w.sessions
    case Finish(token) => token in w.sessions && InBody(w, w.sessions[token])
    case Abort(token) => token in w.sessions && InBody(w, w.sessions[token])
    case Close(token) => token in w.sessions && w.sessions[token].phase.Closing?
    case Release(token) => token in w.sessions && w.sessions[token].phase.Releasing?
  }

  function Step(w: World, a: Action): World {
    if !InPhase(w, a) then w
    else
      match a
      case Tick(ms) => w.(now := w.now + ms)
      case Acquire(task, token) =>
        if !Free(w) then w
        else
          w.(key := Some(Key(token, w.now + LEASE)),
             sessions := w.sessions[token := Session(task, |w.periods|, w.now, false, Holding, w.now)],
             held := w.held[task := Held(token, 1)],
             periods := w.periods + [Period(token, w.now, w.now + LEASE + 1)])
      case Reenter(task) => w.(held := w.held[task := w.held[task].(depth := w.held[task].depth + 1)])
      case Leave(task) => w.(held := w.held[task := w.held[task].(depth := w.held[task].depth - 1)])
      case Beat(token) =>
        if Owned(w, token) then
          w.(key := Some(Key(token, w.now + LEASE)), periods := Ending(w, w.now + LEASE + 1))
        else w.(sessions := w.sessions[token := w.sessions[token].(leaseError := true)])
      case BeatError(token) => w.(sessions := w.sessions[token := w.sessions[token].(leaseError := true)])
      case Finish(token) =>
        var completed := !w.sessions[token].leaseError && Owned(w, token);
        w.(sessions := w.sessions[token := w.sessions[token].(checked := w.now, phase := Closing(completed))])
      case Abort(token) => SetPhase(w, token, Closing(false))
      case Close(token) =>
        if Owned(w, token) then SetPhase(w, token, Releasing(w.sessions[token].phase.completed))
        else SetPhase(w, token, Ended(false))
      case Release(token) =>
        if Owned(w, token) then
          SetPhase(w, token, Ended(w.sessions[token].phase.completed)).(key := None, periods := Ending(w, w.now))
        else SetPhase(w, token, Ended(false))
  }

  /** The history when the current period ends at `end`. */
  function Ending(w: World, end: int): seq<Period> {
    if w.periods == [] then [] else w.periods[|w.periods| - 1 := w.periods[|w.periods| - 1].(end := end)]
  }

  function Run(w: World, actions: seq<Action>): World
    decreases |actions|
  {
    if actions == [] then w else Run(Step(w, actions[0]), actions[1..])
  }

  /** Whose token the key held at instant `x`. */
  function OwnerAt(periods: seq<Period>, x: int): Option<Token>
    decreases |periods|
  {
    if periods == [] then None
    else if periods[0].begin <= x < periods[0].end then Some(periods[0].token)
    else OwnerAt(periods[1..], x)
  }

  // ---------------------------------------------------------------- the invariant

  /** The key's history: periods in order, without overlap, each with its own token; the last one is the key's. */
  predicate HistoryOk(w: World) {
    && (forall i :: 0 <= i < |w.periods| ==> w.periods[i].begin <= w.periods[i].end && w.periods[i].begin <= w.now)
    && (forall i, j :: 0 <= i < j < |w.periods| ==>
          w.periods[i].end <= w.periods[j].begin && w.periods[i].token != w.periods[j].token)
    && (match w.key
        case None => forall i :: 0 <= i < |w.periods| ==> w.periods[i].end <= w.now
        case Some(k) =>
          |w.periods| > 0 && w.periods[|w.periods| - 1].token == k.token && w.periods[|w.periods| - 1].end == k.until + 1
          && k.until <= w.now + LEASE)
    && (forall i :: 0 <= i < |w.periods| ==> w.periods[i].token in w.sessions)
  }

  predicate Completed(s: Session) {
    match s.phase
    case Holding => false
    case Closing(completed) => completed
    case Releasing(completed) => completed
    case Ended(normal) => normal
  }

  predicate SessionOk(w: World, t: Token, s: Session) {
    && s.period < |w.periods| && w.periods[s.period].token == t && w.periods[s.period].begin == s.acquired
    && s.acquired <= s.checked <= w.now
    && (Completed(s) ==> s.checked <= w.periods[s.period].end)
    && (s.phase.Ended? && s.phase.normal ==> w.periods[s.period].end <= w.now)
    && (if s.phase.Ended? then s.task in w.held ==> w.held[s.task].token != t
        else s.task in w.held && w.held[s.task].token == t)
  }

  predicate WorldOk(w: World) {
    && HistoryOk(w)
    && (forall t :: t in w.sessions ==> SessionOk(w, t, w.sessions[t]))
    && (forall task :: task in w.held ==>
          && w.held[task].depth >= 1 && w.held[task].token in w.sessions && w.sessions[w.held[task].token].task == task)
  }

  /** A free key has no current period. */
  lemma FreeMeansOver(w: World)
    requires HistoryOk(w) && Free(w)
    ensures forall i :: 0 <= i < |w.periods| ==> w.periods[i].end <= w.now
  {
    if w.key.Some? {
      forall i | 0 <= i < |w.periods|
        ensures w.periods[i].end <= w.now
      {
        if i < |w.periods| - 1 {
          assert w.periods[i].end <= w.periods[|w.periods| - 1].begin;
        }
      }
    }
  }

  lemma AcquireKeepsHistory(w: World, a: Action)
    requires WorldOk(w) && a.Acquire? && InPhase(w, a) && Free(w)
    ensures HistoryOk(Step(w, a))
  {
    FreeMeansOver(w);
    hide SessionOk;
  }

  lemma AcquireKeeps(w: World, a: Action)
    requires WorldOk(w) && a.Acquire? && InPhase(w, a)
    ensures WorldOk(Step(w, a))
  {
    hide HistoryOk;
    if Free(w) {
      AcquireKeepsHistory(w, a);
      forall t | t in w.sessions
        ensures SessionOk(Step(w, a), t, w.sessions[t])
      {
        assert SessionOk(w, t, w.sessions[t]);
      }
    }
  }

  /** Moving the end of the current period, forward by a heartbeat or back to now by the release. */
  lemma EndingKeeps(w: World, end: int, key: Option<Key>)
    requires WorldOk(w) && w.key.Some? && w.now <= w.key.value.until
    requires w.now <= end <= w.now + LEASE + 1
    requires key.None? || (key == Some(Key(w.key.value.token, end - 1)) && w.key.value.until < end)
    requires key.None? ==> end == w.now
    ensures HistoryOk(w.(key := key, periods := Ending(w, end)))
    ensures forall t :: t in w.sessions ==> SessionOk(w.(key := key, periods := Ending(w, end)), t, w.sessions[t])
  {
    var w' := w.(key := key, periods := Ending(w, end));
    forall t | t in w.sessions
      ensures SessionOk(w', t, w.sessions[t])
    {
      assert SessionOk(w, t, w.sessions[t]);
    }
  }

  lemma BeatKeeps(w: World, a: Action)
    requires WorldOk(w) && a.Beat? && Owned(w, a.token) && a.token in w.sessions && w.key.value.until <= w.now + LEASE
    ensures WorldOk(Step(w, a))
  {
    EndingKeeps(w, w.now + LEASE + 1, Some(Key(a.token, w.now + LEASE)));
  }

  lemma ReleaseKeeps(w: World, a: Action)
    requires WorldOk(w) && a.Release? && InPhase(w, a) && Owned(w, a.token)
    ensures WorldOk(Step(w, a))
  {
    EndingKeeps(w, w.now, None);
    hide HistoryOk;
  }

  lemma TickKeeps(w: World, ms: nat)
    requires WorldOk(w)
    ensures WorldOk(Step(w, Tick(ms)))
  {
    forall t | t in w.sessions
      ensures SessionOk(Step(w, Tick(ms)), t, w.sessions[t])
    {
      assert SessionOk(w, t, w.sessions[t]);
    }
  }

  lemma NestingKeeps(w: World, a: Action)
    requires WorldOk(w) && InPhase(w, a) && (a.Reenter? || a.Leave?)
    ensures WorldOk(Step(w, a))
  {
    hide HistoryOk, Completed;
    HistoryIgnores(w, Step(w, a));
    forall t | t in w.sessions
      ensures SessionOk(Step(w, a), t, w.sessions[t])
    {
      assert SessionOk(w, t, w.sessions[t]);
    }
  }

  /** One session moves; the key and its history stay. */
  lemma SessionMoves(w: World, w': World, t: Token)
    requires WorldOk(w) && t in w.sessions
    requires t in w'.sessions && w' == w.(sessions := w.sessions[t := w'.sessions[t]], held := w'.held)
    requires w'.sessions[t].task == w.sessions[t].task && SessionOk(w', t, w'.sessions[t])
    requires w'.held == w.held
             || (w'.held == w.held - {w.sessions[t].task} && !w.sessions[t].phase.Ended? && w'.sessions[t].phase.Ended?)
    ensures WorldOk(w')
  {
    hide HistoryOk, Completed;
    assert HistoryOk(w') by {
      HistoryIgnores(w, w');
    }
    forall u | u in w'.sessions
      ensures SessionOk(w', u, w'.sessions[u])
    {
      if u != t {
        assert SessionOk(w, u, w.sessions[u]);
        assert SessionOk(w, t, w.sessions[t]);
      }
    }
  }

  lemma HistoryIgnores(w: World, w': World)
    requires HistoryOk(w) && w'.sessions.Keys == w.sessions.Keys
    requires w'.periods == w.periods && w'.key == w.key && w'.now == w.now
    ensures HistoryOk(w')
  {
  }

  lemma OthersKeep(w: World, a: Action)
    requires WorldOk(w) && InPhase(w, a) && (a.Beat? || a.BeatError? || a.Finish? || a.Abort? || a.Close? || a.Release?)
    requires a.Beat? || a.Release? ==> !Owned(w, a.token)
    ensures WorldOk(Step(w, a))
  {
    hide WorldOk;
    assert SessionOk(w, a.token, w.sessions[a.token]) && HistoryOk(w) by {
      Parts(w, a.token);
    }
    assert SessionOk(Step(w, a), a.token, Step(w, a).sessions[a.token]);
    SessionMoves(w, Step(w, a), a.token);
  }

  lemma Parts(w: World, t: Token)
    requires WorldOk(w) && t in w.sessions
    ensures SessionOk(w, t, w.sessions[t]) && HistoryOk(w)
  {
  }

  lemma StepKeepsWorld(w: World, a: Action)
    requires WorldOk(w)
    ensures WorldOk(Step(w, a))
  {
    if InPhase(w, a) {
      match a
      case Tick(ms) => TickKeeps(w, ms);
      case Acquire(_, _) => AcquireKeeps(w, a);
      case Reenter(_) => NestingKeeps(w, a);
      case Leave(_) => NestingKeeps(w, a);
      case Beat(t) => if Owned(w, t) { BeatKeeps(w, a); } else { OthersKeep(w, a); }
      case Release(t) => if Owned(w, t) { ReleaseKeeps(w, a); } else { OthersKeep(w, a); }
      case _ => OthersKeep(w, a);
    }
  }

  lemma {:induction false} RunKeepsWorld(w: World, actions: seq<Action>)
    requires WorldOk(w)
    ensures WorldOk(Run(w, actions))
    decreases |actions|
  {
    hide WorldOk, Step;
    if actions != [] {
      StepKeepsWorld(w, actions[0]);
      RunKeepsWorld(Step(w, actions[0]), actions[1..]);
    }
  }

  // ---------------------------------------------------------------- the history is the key's history

  predicate Ordered(periods: seq<Period>) {
    && (forall i :: 0 <= i < |periods| ==> periods[i].begin <= periods[i].end)
    && (forall i, j :: 0 <= i < j < |periods| ==> periods[i].end <= periods[j].begin)
  }

  /** In an ordered history an instant lies in one period at most, and that period's token owns it. */
  lemma {:induction false} OwnerInPeriod(periods: seq<Period>, i: nat, x: int)
    requires Ordered(periods) && i < |periods| && periods[i].begin <= x < periods[i].end
    ensures OwnerAt(periods, x) == Some(periods[i].token)
    decreases |periods|
  {
    if i > 0 {
      assert periods[0].end <= periods[i].begin;
      assert forall j :: 0 <= j < |periods[1..]| ==> periods[1..][j] == periods[j + 1];
      OwnerInPeriod(periods[1..], i - 1, x);
    }
  }

  lemma {:induction false} OwnerMeansPeriod(periods: seq<Period>, x: int) returns (i: nat)
    requires OwnerAt(periods, x).Some?
    ensures i < |periods| && periods[i].begin <= x < periods[i].end && OwnerAt(periods, x) == Some(periods[i].token)
    decreases |periods|
  {
    if periods[0].begin <= x < periods[0].end {
      i := 0;
    } else {
      i := OwnerMeansPeriod(periods[1..], x);
      i := i + 1;
    }
  }

  /** At the present instant the history's owner is the token Redis would answer with. */
  lemma HistoryIsTrue(w: World)
    requires WorldOk(w)
    ensures OwnerAt(w.periods, w.now) == if Free(w) then None else Some(w.key.value.token)
  {
    if Free(w) {
      FreeMeansOver(w);
      if OwnerAt(w.periods, w.now).Some? {
        var i := OwnerMeansPeriod(w.periods, w.now);
      }
    } else {
      OwnerInPeriod(w.periods, |w.periods| - 1, w.now);
    }
  }

  /** Periods that agree up to `now` name the same owner at every earlier instant. */
  lemma {:induction false} SamePast(before: seq<Period>, after: seq<Period>, now: int, x: int)
    requires |before| <= |after| && x < now
    requires forall i :: 0 <= i < |before| ==>
               && after[i].token == before[i].token && after[i].begin == before[i].begin
               && (after[i].end == before[i].end || (now <= after[i].end && now <= before[i].end))
    requires forall i :: |before| <= i < |after| ==> now <= after[i].begin
    ensures OwnerAt(after, x) == OwnerAt(before, x)
    decreases |after|
  {
    if after != [] {
      if before == [] {
        SamePast([], after[1..], now, x);
      } else {
        SamePast(before[1..], after[1..], now, x);
      }
    }
  }

  /** And no action rewrites the past. */
  lemma PastIsKept(w: World, a: Action, x: int)
    requires WorldOk(w) && x < w.now
    ensures OwnerAt(Step(w, a).periods, x) == OwnerAt(w.periods, x)
  {
    SamePast(w.periods, Step(w, a).periods, w.now, x);
  }

  // ---------------------------------------------------------------- what a normal exit means

  /** A `hold` that exits normally owned the key at every instant from its acquisition to the ownership check after its body. */
  lemma NormalExitOwnedThroughout(start: int, actions: seq<Action>, t: Token, x: int)
    requires var w := Run(Start(start), actions);
             && t in w.sessions && w.sessions[t].phase == Ended(true)
             && w.sessions[t].acquired <= x < w.sessions[t].checked
    ensures OwnerAt(Run(Start(start), actions).periods, x) == Some(t)
  {
    hide Run;
    RunKeepsWorld(Start(start), actions);
    var w := Run(Start(start), actions);
    assert SessionOk(w, t, w.sessions[t]);
    OwnerInPeriod(w.periods, w.sessions[t].period, x);
  }

  /** So no two bodies that both exited normally overlap. */
  lemma NormalBodiesAreDisjoint(start: int, actions: seq<Action>, t: Token, u: Token)
    requires var w := Run(Start(start), actions);
             && t in w.sessions && u in w.sessions && t != u
             && w.sessions[t].phase == Ended(true) && w.sessions[u].phase == Ended(true)
    ensures var w := Run(Start(start), actions);
            w.sessions[t].checked <= w.sessions[u].acquired || w.sessions[u].checked <= w.sessions[t].acquired
  {
    hide Run;
    RunKeepsWorld(Start(start), actions);
    var w := Run(Start(start), actions);
    assert SessionOk(w, t, w.sessions[t]) && SessionOk(w, u, w.sessions[u]);
    assert w.sessions[t].period != w.sessions[u].period;
  }

  /** The body counts as completed exactly when no heartbeat failed and Redis still names this holder. */
  lemma CompletedIff(w: World, t: Token)
    requires WorldOk(w) && t in w.sessions && InBody(w, w.sessions[t])
    ensures Completed(Step(w, Finish(t)).sessions[t]) <==>
              !w.sessions[t].leaseError && OwnerAt(w.periods, w.now) == Some(t)
    ensures Step(w, Finish(t)).sessions[t].checked == w.now
  {
    HistoryIsTrue(w);
  }

  /** And the exit is normal exactly when the body completed and the release finds the holder's own token. */
  lemma NormalIff(w: World, t: Token)
    requires WorldOk(w) && t in w.sessions && w.sessions[t].phase.Releasing?
    ensures Step(w, Release(t)).sessions[t].phase
            == Ended(Completed(w.sessions[t]) && OwnerAt(w.periods, w.now) == Some(t))
    ensures Free(Step(w, Release(t))) <==> Free(w) || OwnerAt(w.periods, w.now) == Some(t)
  {
    hide HistoryOk, SessionOk, OwnerAt;
    HistoryIsTrue(w);
  }

  function TokenOf(a: Action): Option<Token> {
    match a
    case Acquire(_, t) => Some(t)
    case Beat(t) => Some(t)
    case BeatError(t) => Some(t)
    case Finish(t) => Some(t)
    case Abort(t) => Some(t)
    case Close(t) => Some(t)
    case Release(t) => Some(t)
    case _ => None
  }

  /** A key that somebody holds is touched by that holder alone: a superseded one neither extends nor releases it. */
  lemma OnlyTheOwnerTouchesTheKey(w: World, a: Action)
    requires !Free(w) && TokenOf(a) != Some(w.key.value.token)
    ensures Step(w, a).key == w.key && Step(w, a).periods == w.periods
  {
  }

  // ---------------------------------------------------------------- one action at a time

  /** The key names this token now. */
  predicate Mine(w: World, t: Token) {
    OwnerAt(w.periods, w.now) == Some(t)
  }

  /** Only this session changed, if any. */
  predicate OnlySession(w: World, w': World, t: Token) {
    && w'.now == w.now && t in w'.sessions
    && w'.sessions.Keys == w.sessions.Keys + {t} && forall u :: u in w.sessions && u != t ==> w'.sessions[u] == w.sessions[u]
  }

  /** A key that nobody owns is taken for five minutes by a session of depth one; a key that somebody owns is left alone. */
  lemma AcquireIff(w: World, task: Task, t: Token)
    requires WorldOk(w) && task !in w.held && t !in w.sessions
    ensures var w' := Step(w, Acquire(task, t));
            if OwnerAt(w.periods, w.now).Some? then w' == w
            else
              && OnlySession(w, w', t) && Mine(w', t) && w'.key == Some(Key(t, w.now + 300_000))
              && w'.sessions[t].(period := 0) == Session(task, 0, w.now, false, Holding, w.now)
              && w'.held == w.held[task := Held(t, 1)]
  {
    hide Step, HistoryOk, SessionOk, OwnerAt;
    HistoryIsTrue(w);
    Taken(w, task, t);
    if Free(w) {
      AcquireKeeps(w, Acquire(task, t));
      HistoryIsTrue(Step(w, Acquire(task, t)));
    }
  }

  lemma Taken(w: World, task: Task, t: Token)
    requires WorldOk(w) && task !in w.held && t !in w.sessions
    ensures var w' := Step(w, Acquire(task, t));
            if !Free(w) then w' == w
            else
              && w'.now == w.now && w'.key == Some(Key(t, w.now + 300_000)) && w'.held == w.held[task := Held(t, 1)]
              && w'.sessions == w.sessions[t := Session(task, |w.periods|, w.now, false, Holding, w.now)]
  {
  }

  /** A heartbeat gives the holder another five minutes from now; one that finds its lock lost says so. */
  lemma BeatIff(w: World, t: Token)
    requires WorldOk(w) && t in w.sessions
    ensures var w' := Step(w, Beat(t));
            if Mine(w, t) then
              && w' == w.(key := w'.key, periods := w'.periods) && Mine(w', t) && w'.key == Some(Key(t, w.now + 300_000))
            else w' == w.(sessions := w.sessions[t := w.sessions[t].(leaseError := true)])
    ensures Step(w, BeatError(t)) == w.(sessions := w.sessions[t := w.sessions[t].(leaseError := true)])
  {
    hide HistoryOk, SessionOk, OwnerAt;
    HistoryIsTrue(w);
    StepKeepsWorld(w, Beat(t));
    HistoryIsTrue(Step(w, Beat(t)));
  }

  /** The end of the body is noted with the time of its check; what it raised counts as not completed. */
  lemma FinishIff(w: World, t: Token)
    requires WorldOk(w) && t in w.sessions && InBody(w, w.sessions[t])
    ensures var me := w.sessions[t];
            && Step(w, Finish(t))
               == w.(sessions := w.sessions[t := me.(checked := w.now, phase := Closing(!me.leaseError && Mine(w, t)))])
            && Step(w, Abort(t)) == w.(sessions := w.sessions[t := me.(phase := Closing(false))])
  {
    hide HistoryOk, SessionOk, OwnerAt;
    HistoryIsTrue(w);
  }

  /** Cleaning up, the holder goes on to the release; who is not the holder any more ends, and has lost the lock. */
  lemma CloseIff(w: World, t: Token)
    requires WorldOk(w) && t in w.sessions && w.sessions[t].phase.Closing?
    ensures var me := w.sessions[t];
            Step(w, Close(t))
            == if Mine(w, t) then w.(sessions := w.sessions[t := me.(phase := Releasing(me.phase.completed))])
               else w.(sessions := w.sessions[t := me.(phase := Ended(false))], held := w.held - {me.task})
  {
    hide HistoryOk, SessionOk, OwnerAt;
    HistoryIsTrue(w);
  }

  /** The release deletes the holder's own key, so that nobody owns it, and no other's; either way the session is over. */
  lemma ReleaseIff(w: World, t: Token)
    requires WorldOk(w) && t in w.sessions && w.sessions[t].phase.Releasing?
    ensures var me, w', mine := w.sessions[t], Step(w, Release(t)), Mine(w, t);
            && w' == w.(sessions := w.sessions[t := me.(phase := Ended(mine && me.phase.completed))],
                        held := w.held - {me.task}, key := w'.key, periods := w'.periods)
            && (if mine then w'.key == None && OwnerAt(w'.periods, w'.now) == None
                else w'.key == w.key && w'.periods == w.periods)
  {
    hide HistoryOk, SessionOk, OwnerAt;
    HistoryIsTrue(w);
    StepKeepsWorld(w, Release(t));
    HistoryIsTrue(Step(w, Release(t)));
  }

  /** The body is running, and no nested `hold` in it. */
  predicate Inside(w: World, t: Token)
    requires WorldOk(w) && t in w.sessions
  {
    assert SessionOk(w, t, w.sessions[t]);
    w.sessions[t].phase == Holding && w.held[w.sessions[t].task].depth <= 1
  }

  /** What is out of turn does nothing; time only passes. */
  lemma OutOfTurnIff(w: World, a: Action)
    requires WorldOk(w) && (a.Finish? || a.Abort? || a.Close? || a.Release? || a.Leave? || a.Reenter?)
    ensures Step(w, a) == w <==>
              match a
              case Reenter(task) => task !in w.held
              case Leave(task) => task !in w.held || w.held[task].depth == 1
              case Close(t) => t !in w.sessions || !w.sessions[t].phase.Closing?
              case Release(t) => t !in w.sessions || !w.sessions[t].phase.Releasing?
              case Finish(t) => t !in w.sessions || !Inside(w, t)
              case Abort(t) => t !in w.sessions || !Inside(w, t)
              case _ => false
    ensures forall ms: nat :: Step(w, Tick(ms)) == w.(now := w.now + ms)
  {
    hide HistoryOk;
    if TokenOf(a).Some? && TokenOf(a).value in w.sessions {
      assert SessionOk(w, TokenOf(a).value, w.sessions[TokenOf(a).value]);
    }
    if a.Leave? || a.Reenter? {
      if a.task in w.held {
        assert Step(w, a) == w ==> Step(w, a).held[a.task] == w.held[a.task];
      }
    }
  }

  // ---------------------------------------------------------------- re-entrance

  /** Entering again and leaving touch only the depth, and undo each other. */
  lemma NestedHoldsStayLocal(w: World, task: Task)
    requires WorldOk(w) && task in w.held
    ensures Step(w, Reenter(task)).key == w.key && Step(w, Reenter(task)).periods == w.periods
    ensures Step(w, Reenter(task)).sessions == w.sessions
    ensures Step(Step(w, Reenter(task)), Leave(task)) == w
  {
    var entered := Step(w, Reenter(task));
    assert Step(entered, Leave(task)).held == w.held;
  }

  /** A task has one outermost `hold` at a time; while it does, it never tries to acquire. */
  lemma OneSessionPerTask(start: int, actions: seq<Action>, t: Token, u: Token, token: Token)
    requires var w := Run(Start(start), actions);
             && t in w.sessions && u in w.sessions && !w.sessions[t].phase.Ended? && !w.sessions[u].phase.Ended?
             && w.sessions[t].task == w.sessions[u].task
    ensures var w := Run(Start(start), actions);
            t == u && Step(w, Acquire(w.sessions[t].task, token)) == w
  {
    hide Run;
    RunKeepsWorld(Start(start), actions);
    var w := Run(Start(start), actions);
    assert SessionOk(w, t, w.sessions[t]) && SessionOk(w, u, w.sessions[u]);
  }
}
