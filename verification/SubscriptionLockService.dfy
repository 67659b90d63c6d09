/** `hold` itself, run by one task while everything else interleaves, proved to be a run of the lock. */
module SubscriptionLockService {
  import opened Common
  import opened SubscriptionLock

  /** `Raised`: the body's own exception, or the lost-lease error that replaces a cancellation of the body. */
  datatype Outcome = TimedOut | Normal | Lost | Raised

  /**
   What happens around one `hold`: during each wait for a held key, during the body (heartbeats included),
   before the two ownership checks and the release; and whether the body raises.
   */
  datatype Turn = Turn(
    waits: seq<seq<Action>>, body: seq<Action>, bodyRaises: bool, beforeClose: seq<Action>, beforeRelease: seq<Action>)

  /** Actions of others: any heartbeat may beat, but nobody else acts as this task or moves this session. */
  predicate ByOther(a: Action, task: Task, token: Token) {
    match a
    case Acquire(t, k) => t != task && k != token
    case Reenter(t) => t != task
    case Leave(t) => t != task
    case Finish(k) => k != token
    case Abort(k) => k != token
    case Close(k) => k != token
    case Release(k) => k != token
    case _ => true
  }

  predicate ByOthers(actions: seq<Action>, task: Task, token: Token) {
    forall a :: a in actions ==> ByOther(a, task, token)
  }

  predicate ByOthersThroughout(turn: Turn, task: Task, token: Token) {
    && (forall i :: 0 <= i < |turn.waits| ==> ByOthers(turn.waits[i], task, token))
    && ByOthers(turn.body, task, token) && ByOthers(turn.beforeClose, task, token) && ByOthers(turn.beforeRelease, task, token)
  }

  /** What `hold` keeps in its own frame: its depth, and how far its session is. */
  predicate SameFrame(w: World, w': World, task: Task, token: Token) {
    && (task in w'.held <==> task in w.held) && (task in w.held ==> w'.held[task] == w.held[task])
    && (token in w'.sessions <==> token in w.sessions)
    && (token in w.sessions ==>
          && w'.sessions[token].phase == w.sessions[token].phase && w'.sessions[token].task == w.sessions[token].task
          && w'.sessions[token].acquired == w.sessions[token].acquired && w'.sessions[token].checked == w.sessions[token].checked)
  }

  lemma OtherKeepsFrame(w: World, a: Action, task: Task, token: Token)
    requires WorldOk(w) && ByOther(a, task, token) && (task in w.held ==> w.held[task].token == token)
    ensures SameFrame(w, Step(w, a), task, token)
  {
    hide HistoryOk, Completed;
    if TokenOf(a).Some? && TokenOf(a).value in w.sessions && TokenOf(a) != Some(token) {
      assert SessionOk(w, TokenOf(a).value, w.sessions[TokenOf(a).value]);
    }
  }

  lemma {:induction false} OthersKeepFrame(w: World, actions: seq<Action>, task: Task, token: Token)
    requires WorldOk(w) && ByOthers(actions, task, token) && (task in w.held ==> w.held[task].token == token)
    ensures SameFrame(w, Run(w, actions), task, token)
    decreases |actions|
  {
    hide WorldOk, Step;
    if actions != [] {
      StepKeepsWorld(w, actions[0]);
      OtherKeepsFrame(w, actions[0], task, token);
      OthersKeepFrame(Step(w, actions[0]), actions[1..], task, token);
    }
  }

  lemma {:induction false} RunAppends(w: World, first: seq<Action>, second: seq<Action>)
    ensures Run(w, first + second) == Run(Run(w, first), second)
    decreases |first|
  {
    if first == [] {
      assert first + second == second;
    } else {
      assert (first + second)[1..] == first[1..] + second;
      RunAppends(Step(w, first[0]), first[1..], second);
    }
  }

  lemma RunExtends(w: World, actions: seq<Action>, a: Action)
    ensures Run(w, actions + [a]) == Step(Run(w, actions), a)
  {
    RunAppends(w, actions, [a]);
    assert [a][1..] == [];
  }

  /** The tries of a blocking acquisition: one before each wait, and one after the last. */
  function Tries(task: Task, token: Token, waits: seq<seq<Action>>): seq<Action>
    decreases |waits|
  {
    if waits == [] then [Acquire(task, token)]
    else Tries(task, token, waits[..|waits| - 1]) + waits[|waits| - 1] + [Acquire(task, token)]
  }

  lemma OneTryMore(task: Task, token: Token, waits: seq<seq<Action>>, i: nat)
    requires i < |waits|
    ensures Tries(task, token, waits[..i + 1]) == Tries(task, token, waits[..i]) + waits[i] + [Acquire(task, token)]
  {
    assert waits[..i + 1][..i] == waits[..i];
  }

  /** What an outermost `hold` that acquired the lock does: the body, its end, the ownership check, and the release if that was passed. */
  function Course(task: Task, token: Token, turn: Turn, waits: seq<seq<Action>>, owned: bool): seq<Action> {
    Tries(task, token, waits) + turn.body + [if turn.bodyRaises then Abort(token) else Finish(token)]
    + turn.beforeClose + [Close(token)] + if owned then turn.beforeRelease + [Release(token)] else []
  }

  class RedisSubscriptionMutationLock {
    /** The Redis key, its history, and the server's time. */
    var now: int
    var key: Option<Key>
    var periods: seq<Period>
    /** `_held_by_task` for this user, and the running `hold`s. */
    var held: map<Task, Held>
    var sessions: map<Token, Session>

    function State(): World
      reads this
    {
      World(now, key, sessions, held, periods)
    }

    ghost predicate Valid()
      reads this
    {
      WorldOk(State())
    }

    constructor (start: int)
      ensures Valid() && State() == Start(start)
    {
      now, key, periods, held, sessions := start, None, [], map[], map[];
    }

    method Interfere(actions: seq<Action>, task: Task, token: Token)
      requires Valid() && ByOthers(actions, task, token) && (task in held ==> held[task].token == token)
      modifies this
      ensures Valid() && State() == Run(old(State()), actions) && SameFrame(old(State()), State(), task, token)
    {
      hide WorldOk, Run, Step;
      RunKeepsWorld(State(), actions);
      OthersKeepFrame(State(), actions, task, token);
      var w := Run(State(), actions);
      now, key, periods, held, sessions := w.now, w.key, w.periods, w.held, w.sessions;
    }

    /** One try of `lock.acquire`: SET NX PX. */
    method TryAcquire(task: Task, token: Token) returns (acquired: bool)
      requires Valid() && task !in held && token !in sessions
      modifies this
      ensures Valid() && State() == Step(old(State()), Acquire(task, token))
      ensures acquired == old(Free(State()))
      ensures acquired ==>
                && held == old(held)[task := Held(token, 1)] && token in sessions && sessions[token].phase == Holding
                && sessions[token].task == task && sessions[token].acquired == now
      ensures !acquired ==> State() == old(State())
    {
      hide WorldOk;
      StepKeepsWorld(State(), Acquire(task, token));
      acquired := key.None? || key.value.until < now;
      if acquired {
        key := Some(Key(token, now + LEASE));
        sessions := sessions[token := Session(task, |periods|, now, false, Holding, now)];
        periods := periods + [Period(token, now, now + LEASE + 1)];
        held := held[task := Held(token, 1)];
      }
    }

    /** `blocking_timeout`: try again after each wait, until the key is free or the waits are used up. */
    method AcquireBlocking(task: Task, token: Token, waits: seq<seq<Action>>) returns (acquired: bool, waited: nat, trace: seq<Action>)
      requires Valid() && task !in held && token !in sessions
      requires forall i :: 0 <= i < |waits| ==> ByOthers(waits[i], task, token)
      modifies this
      ensures Valid() && State() == Run(old(State()), trace)
      ensures waited <= |waits| && trace == Tries(task, token, waits[..waited])
      ensures acquired ==>
                && task in held && held[task] == Held(token, 1) && token in sessions && sessions[token].phase == Holding
                && sessions[token].task == task && sessions[token].acquired == now
      ensures !acquired ==> task !in held && token !in sessions && waited == |waits|
    {
      hide WorldOk, Run, Step;
      trace := [Acquire(task, token)];
      waited := 0;
      RunNothing(State());
      RunExtends(State(), [], Acquire(task, token));
      assert [] + [Acquire(task, token)] == trace;
      acquired := TryAcquire(task, token);
      while !acquired && waited < |waits|
        invariant 0 <= waited <= |waits| && Valid() && State() == Run(old(State()), trace)
        invariant trace == Tries(task, token, waits[..waited])
        invariant acquired ==>
                    && task in held && held[task] == Held(token, 1) && token in sessions && sessions[token].phase == Holding
                    && sessions[token].task == task && sessions[token].acquired == now
        invariant !acquired ==> task !in held && token !in sessions
        decreases |waits| - waited
      {
        OneTryMore(task, token, waits, waited);
        RunAppends(old(State()), trace, waits[waited]);
        Interfere(waits[waited], task, token);
        RunExtends(old(State()), trace + waits[waited], Acquire(task, token));
        trace, waited := trace + waits[waited] + [Acquire(task, token)], waited + 1;
        acquired := TryAcquire(task, token);
      }
    }

    /** After the body: the lost lease is reported before anything else, then Redis is asked. */
    method EndBody(task: Task, token: Token, raises: bool) returns (completed: bool)
      requires Valid() && token in sessions && InBody(State(), sessions[token]) && sessions[token].task == task
      modifies this
      ensures Valid() && State() == Step(old(State()), if raises then Abort(token) else Finish(token))
      ensures token in sessions && sessions[token].phase == Closing(completed) && sessions[token].task == task
      ensures held == old(held) && sessions[token].acquired == old(sessions[token].acquired)
      ensures !raises ==> sessions[token].checked == now
      ensures completed ==> !raises && Owned(old(State()), token)
    {
      hide WorldOk;
      StepKeepsWorld(State(), if raises then Abort(token) else Finish(token));
      completed := false;
      var me := sessions[token];
      if !raises {
        completed := !me.leaseError && key.Some? && key.value.token == token && now <= key.value.until;
        me := me.(checked := now);
      }
      sessions := sessions[token := me.(phase := Closing(completed))];
    }

    /** The ownership check of the `finally` block. */
    method CheckOwner(task: Task, token: Token) returns (owned: bool)
      requires Valid() && token in sessions && sessions[token].phase.Closing? && sessions[token].task == task
      modifies this
      ensures Valid() && State() == Step(old(State()), Close(token)) && token in sessions
      ensures sessions[token] == old(sessions[token]).(phase := if owned then Releasing(old(sessions[token].phase.completed)) else Ended(false))
      ensures held == if owned then old(held) else old(held) - {task}
      ensures owned == Owned(old(State()), token)
    {
      hide WorldOk;
      StepKeepsWorld(State(), Close(token));
      owned := key.Some? && key.value.token == token && now <= key.value.until;
      var me := sessions[token];
      if owned {
        sessions := sessions[token := me.(phase := Releasing(me.phase.completed))];
      } else {
        sessions := sessions[token := me.(phase := Ended(false))];
        held := held - {task};
      }
    }

    /** The release script: delete the key if it still holds this token. */
    method ReleaseKey(task: Task, token: Token) returns (released: bool)
      requires Valid() && token in sessions && sessions[token].phase.Releasing? && sessions[token].task == task
      modifies this
      ensures Valid() && State() == Step(old(State()), Release(token)) && token in sessions
      ensures sessions[token] == old(sessions[token]).(phase := Ended(released && old(sessions[token].phase.completed)))
      ensures held == old(held) - {task} && released == Owned(old(State()), token)
      ensures !released ==> key == old(key) && periods == old(periods)
    {
      hide WorldOk;
      StepKeepsWorld(State(), Release(token));
      released := key.Some? && key.value.token == token && now <= key.value.until;
      var me := sessions[token];
      sessions := sessions[token := me.(phase := Ended(released && me.phase.completed))];
      held := held - {task};
      if released {
        key := None;
        HasPeriod(old(State()), token);
        periods := periods[|periods| - 1 := periods[|periods| - 1].(end := now)];
      }
    }

    /**
     `hold` around a body. A normal outcome of the outermost one means that the key held its token at every
     instant from the acquisition to the check after the body; a nested one never touches Redis.
     */
    method Hold(task: Task, token: Token, turn: Turn) returns (outcome: Outcome, trace: seq<Action>)
      requires Valid() && token !in sessions
      requires ByOthersThroughout(turn, task, if task in held then held[task].token else token)
      modifies this
      ensures Valid() && State() == Run(old(State()), trace)
      ensures task in old(held) ==>
                && trace == [Reenter(task)] + turn.body + [Leave(task)] && task in held && held[task] == old(held)[task]
                && outcome == if turn.bodyRaises then Raised else Normal
      ensures task !in old(held) ==> task !in held && (token in sessions ==> sessions[token].phase.Ended?)
      ensures task !in old(held) ==>
                if token !in sessions then trace == Tries(task, token, turn.waits)
                else exists waits, owned :: waits <= turn.waits && trace == Course(task, token, turn, waits, owned)
      ensures task !in old(held) ==>
                && (outcome == TimedOut <==> token !in sessions)
                && (outcome == Normal <==> token in sessions && sessions[token].phase == Ended(true))
                && (outcome == Raised <==>
                      && token in sessions && turn.bodyRaises && trace != []
                      && (trace[|trace| - 1].Close? || Owned(Run(old(State()), trace[..|trace| - 1]), token)))
      ensures task !in old(held) && outcome == Normal ==>
                forall x :: sessions[token].acquired <= x < sessions[token].checked ==> OwnerAt(periods, x) == Some(token)
    {
      hide WorldOk, Run, Step, Owned;
      ghost var start := State();
      if task in held {
        trace := HoldNested(task, turn.body);
        outcome := if turn.bodyRaises then Raised else Normal;
        return;
      }
      var acquired, waited;
      acquired, waited, trace := AcquireBlocking(task, token, turn.waits);
      if !acquired {
        assert turn.waits[..waited] == turn.waits;
        return TimedOut, trace;
      }
      Interfere(turn.body, task, token);
      RunAppends(start, trace, turn.body);
      var ending := if turn.bodyRaises then Abort(token) else Finish(token);
      RunExtends(start, trace + turn.body, ending);
      trace := trace + turn.body + [ending];
      var completed := EndBody(task, token, turn.bodyRaises);

      Interfere(turn.beforeClose, task, token);
      RunAppends(start, trace, turn.beforeClose);
      RunExtends(start, trace + turn.beforeClose, Close(token));
      trace := trace + turn.beforeClose + [Close(token)];
      assert trace == Course(task, token, turn, turn.waits[..waited], false);
      var owned := CheckOwner(task, token);
      if !owned {
        return (if turn.bodyRaises then Raised else Lost), trace;
      }

      Interfere(turn.beforeRelease, task, token);
      RunAppends(start, trace, turn.beforeRelease);
      RunExtends(start, trace + turn.beforeRelease, Release(token));
      ghost var before := trace + turn.beforeRelease;
      assert before + [Release(token)] == Course(task, token, turn, turn.waits[..waited], true);
      trace := trace + turn.beforeRelease + [Release(token)];
      assert trace[..|trace| - 1] == before;
      var released := ReleaseKey(task, token);
      outcome := if completed && released then Normal else if released && turn.bodyRaises then Raised else Lost;
      if outcome == Normal {
        OwnedThroughout(State(), token);
      }
    }

    method HoldNested(task: Task, body: seq<Action>) returns (trace: seq<Action>)
      requires Valid() && task in held && ByOthers(body, task, held[task].token)
      modifies this
      ensures Valid() && State() == Run(old(State()), trace) && trace == [Reenter(task)] + body + [Leave(task)]
      ensures task in held && held[task] == old(held)[task]
    {
      hide WorldOk, Run, Step;
      ghost var start := State();
      ghost var token := held[task].token;
      Nesting(State(), task);
      StepKeepsWorld(State(), Reenter(task));
      held := held[task := held[task].(depth := held[task].depth + 1)];
      RunNothing(start);
      RunExtends(start, [], Reenter(task));
      trace := [] + [Reenter(task)];
      Interfere(body, task, held[task].token);
      RunAppends(start, trace, body);
      RunExtends(start, trace + body, Leave(task));
      trace := trace + body + [Leave(task)];
      Nesting(State(), task);
      StepKeepsWorld(State(), Leave(task));
      held := held[task := held[task].(depth := held[task].depth - 1)];
    }
  }

  lemma RunNothing(w: World)
    ensures Run(w, []) == w
  {
  }

  lemma HasPeriod(w: World, t: Token)
    requires WorldOk(w) && Owned(w, t)
    ensures |w.periods| > 0
  {
  }

  lemma Nesting(w: World, task: Task)
    requires WorldOk(w) && task in w.held
    ensures w.held[task].depth >= 1
    ensures Step(w, Reenter(task)) == w.(held := w.held[task := w.held[task].(depth := w.held[task].depth + 1)])
    ensures w.held[task].depth > 1 ==>
              Step(w, Leave(task)) == w.(held := w.held[task := w.held[task].(depth := w.held[task].depth - 1)])
  {
    hide HistoryOk, SessionOk;
  }

  lemma OwnedThroughout(w: World, t: Token)
    requires WorldOk(w) && t in w.sessions && w.sessions[t].phase == Ended(true)
    ensures forall x :: w.sessions[t].acquired <= x < w.sessions[t].checked ==> OwnerAt(w.periods, x) == Some(t)
  {
    assert SessionOk(w, t, w.sessions[t]);
    forall x | w.sessions[t].acquired <= x < w.sessions[t].checked
      ensures OwnerAt(w.periods, x) == Some(t)
    {
      OwnerInPeriod(w.periods, w.sessions[t].period, x);
    }
  }
}
