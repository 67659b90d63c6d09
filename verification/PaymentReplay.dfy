/** How long a create call may be repeated: the provider recognises its key for twenty-three hours. */
module PaymentReplay {
  import opened Common
  import opened PaymentStore
  import opened PaymentSaga
  import opened PaymentSafety
  import opened PaymentTheorems
  import opened PaymentEffects

  /** A row that a person has to look at, and that nobody holds. */
  predicate LaidDown(s: Saga) {
    s.op.Some? && s.op.value.status == ManualRequired && s.op.value.token.None?
  }

  predicate OnlyHandlersCall(s: Saga, s': Saga) {
    && |s.calls| <= |s'.calls| && s'.calls[..|s.calls|] == s.calls
    && forall i :: |s.calls| <= i < |s'.calls| ==> s'.calls[i].who.ByCaller?
  }

  lemma NobodyIsAtWork(s: Saga)
    requires SagaOk(s) && LaidDown(s)
    ensures forall t :: t in s.attempts ==> !s.attempts[t].Loaded?
  {
    hide CountOk, TxnOk, RowOk, CallerOk, CallOk, RecordOk;
    forall t | t in s.attempts
      ensures !s.attempts[t].Loaded?
    {
      assert AttemptOk(t, s.attempts[t], s.op, s.nextId, s.clock);
    }
  }

  lemma StepAfterLayingDown(s: Saga, a: Action)
    requires SagaOk(s) && LaidDown(s)
    ensures LaidDown(Step(s, a)) && OnlyHandlersCall(s, Step(s, a))
  {
    hide Step, SagaOk, MayRecreate;
    NobodyIsAtWork(s);
    StepKeeps(s, a);
    StepTouches(s, a);
  }

  lemma {:induction false} RunAfterLayingDown(s: Saga, actions: seq<Action>)
    requires SagaOk(s) && LaidDown(s)
    ensures LaidDown(Run(s, actions)) && OnlyHandlersCall(s, Run(s, actions))
    decreases |actions|
  {
    hide SagaOk, Step, LaidDown;
    if actions != [] {
      StepKeeps(s, actions[0]);
      StepAfterLayingDown(s, actions[0]);
      RunAfterLayingDown(Step(s, actions[0]), actions[1..]);
    }
  }

  /**
   Once a check finds an unclaimed row past its replay window, or out of attempts, the row is manual for good and no
   reconciliation ever makes a create call for it again.
   */
  lemma NoReplayAfterTheWindow(s: Saga, t: Token, actions: seq<Action>)
    requires SagaOk(s) && t !in s.attempts && s.op.Some? && Adrift(s.op.value, s.clock) && OutOfTries(s.op.value, s.clock)
    ensures var s' := Run(Step(s, Check(t)), actions);
            && s'.op == Step(s, Check(t)).op && s'.op.Some? && s'.op.value.status == ManualRequired
            && OnlyHandlersCall(s, s')
  {
    hide SagaOk, Step, Run;
    CheckIff(s, t);
    StepKeeps(s, Check(t));
    var s1 := Step(s, Check(t));
    SettledIsFinal(s1, actions);
    RunAfterLayingDown(s1, actions);
  }

  /** So every create call of an attempt goes back to a check that found the row claimed, or within its window. */
  lemma CallsWereCheckedInTime(s: Saga, t: Token, actions: seq<Action>, i: nat)
    requires SagaOk(s) && t !in s.attempts
    requires var s' := Run(Step(s, Check(t)), actions); |s.calls| <= i < |s'.calls| && s'.calls[i].who.ByAttempt?
    ensures s.op.Some? && Adrift(s.op.value, s.clock) ==> s.op.value.token.Some? || !PastReplay(s.op.value, s.clock)
  {
    hide SagaOk, Run, Step;
    if s.op.Some? && Adrift(s.op.value, s.clock) && OutOfTries(s.op.value, s.clock) {
      NoReplayAfterTheWindow(s, t, actions);
    }
  }

  // ---------------------------------------------------------------- the window of a reachable row

  /** A row that can be replayed is whole: it names its gateway and owner, and when its window ends. */
  predicate Whole(op: Op) {
    && (op.mode == YookassaReplay ==> op.yookassa && op.owner.Some? && op.replayUntil.Some?)
    && (op.yookassa ==> op.mode != ManualMode)
    && (op.mode == LocalMode ==> op.request.Some? && op.request.value.LocalRequest?)
  }

  predicate WholeRow(s: Saga) {
    s.op.Some? && Started(s.op.value) ==> Whole(s.op.value)
  }

  lemma StepKeepsWhole(s: Saga, a: Action)
    requires SagaOk(s) && WholeRow(s)
    ensures WholeRow(Step(s, a))
  {
    hide Step, SagaOk;
    StepKeeps(s, a);
    if s.op.Some? && Started(s.op.value) {
    } else if a.Cross? && InPhase(s, a) {
      CrossIff(s, a.caller, a.plan);
    } else {
      OnlyCrossingStarts(s, a);
    }
  }

  lemma OnlyCrossingStarts(s: Saga, a: Action)
    requires SagaOk(s) && (s.op.Some? ==> !Started(s.op.value)) && !(a.Cross? && InPhase(s, a))
    ensures Step(s, a).op.Some? ==> !Started(Step(s, a).op.value)
  {
    hide Step, SagaOk;
    StepKeeps(s, a);
    assert SagaOk(s) && SagaOk(Step(s, a));
    StepTouches(s, a);
    CrossingsTell(s);
    CrossingsTell(Step(s, a));
  }

  lemma CrossingsTell(s: Saga)
    requires SagaOk(s)
    ensures s.op.Some? && Started(s.op.value) <==> s.crossings != []
  {
    hide TxnOk, RowOk, CountOk, CallerOk, AttemptOk, CallOk;
  }

  /** The window is set when the boundary is crossed, twenty-three hours from then, and never moves. */
  lemma {:induction false} RunKeepsWhole(s: Saga, actions: seq<Action>)
    requires SagaOk(s) && WholeRow(s)
    ensures WholeRow(Run(s, actions))
    ensures s.op.Some? && Started(s.op.value) ==>
              Run(s, actions).op.Some? && Run(s, actions).op.value.replayUntil == s.op.value.replayUntil
    decreases |actions|
  {
    hide SagaOk, Step;
    if actions != [] {
      StepKeeps(s, actions[0]);
      StepKeepsWhole(s, actions[0]);
      RunKeepsWhole(Step(s, actions[0]), actions[1..]);
    }
  }

  lemma CrossingSetsTheWindow(s: Saga, caller: int, plan: Plan)
    requires SagaOk(s) && InPhase(s, Cross(caller, plan)) && Step(s, Cross(caller, plan)).callers[caller].Crossed?
    ensures var op := Step(s, Cross(caller, plan)).op;
            && op.Some? && op.value.mode == plan.mode
            && (plan.mode == YookassaReplay ==> op.value.replayUntil == Some(s.clock + 23 * 3600))
  {
    hide SagaOk, Step;
    CrossIff(s, caller, plan);
  }

  // ---------------------------------------------------------------- and both of those do happen

  /** A create call would be made now, for a row past its replay window. */
  predicate LateCall(s: Saga, t: Token, result: ProviderResult) {
    && s.op.Some? && PastReplay(s.op.value, s.clock)
    && Step(s, Recreate(t, result)).calls == s.calls + [Call(s.op.value.id, s.op.value.key, ByAttempt(t, s.op.value))]
  }

  /** A replayable payment whose handler died right after crossing, at `start`. */
  predicate Abandoned(s: Saga, start: int) {
    && s.op.Some? && s.op.value.status == Unknown && s.op.value.token.None? && s.op.value.transaction.None?
    && s.op.value.result.None? && s.op.value.mode == YookassaReplay && s.op.value.yookassa && s.op.value.owner.Some?
    && s.op.value.request == Some(GatewayRequest(true)) && s.op.value.replayUntil == Some(start + 23 * 3600)
    && s.op.value.nextAttempt.None? && s.op.value.attempts == 0 && s.clock == start && s.attempts == map[]
  }

  const Replayable := Plan(true, Terms("deal", false, true), GatewayRequest(true), Some(1), YookassaReplay, Some(REPLAY_WINDOW))

  const Dying := [Start(0, "hash", 5), Cross(0, Replayable), Stop(0)]

  lemma HandlerDies(start: int)
    ensures Abandoned(Run(Fresh(start), Dying), start)
  {
    hide Run, Step;
    var s0 := Fresh(start);
    var s1 := Step(s0, Dying[0]);
    var s2 := Step(s1, Dying[1]);
    StartIff(s0, 0, "hash", 5);
    CrossIff(s1, 0, Replayable);
    StopIff(s2, 0);
    RunNothing(s0);
    RunExtends(s0, [], Dying[0]);
    RunExtends(s0, [Dying[0]], Dying[1]);
    RunExtends(s0, [Dying[0], Dying[1]], Dying[2]);
    assert [] + [Dying[0]] == [Dying[0]] && [Dying[0]] + [Dying[1]] == [Dying[0], Dying[1]];
    assert [Dying[0], Dying[1]] + [Dying[2]] == Dying;
  }

  lemma RunNothing(s: Saga)
    ensures Run(s, []) == s
  {
  }

  lemma Ticks(s: Saga, seconds: nat)
    ensures Step(s, Tick(seconds)) == s.(clock := s.clock + seconds)
  {
  }

  lemma RunThree(s: Saga, a: Action, b: Action, c: Action)
    ensures Run(s, [a, b, c]) == Step(Step(Step(s, a), b), c)
  {
    hide Step;
    assert [a, b, c][1..] == [b, c] && [b, c][1..] == [c] && [c][1..] == [];
    assert Run(Step(s, a), [b, c]) == Run(Step(Step(s, a), b), [c]);
    assert Run(Step(Step(s, a), b), [c]) == Step(Step(Step(s, a), b), c);
  }

  /** An unclaimed, due row is claimed and read by an attempt that has checked it. */
  lemma ClaimsAndLoads(s: Saga, t: Token, at: int)
    requires s.op.Some? && ClaimableNow(s.op.value, s.clock) && t in s.attempts && s.attempts[t] == Checked(s.op.value.id, at)
    ensures var row := s.op.value.(token := Some(t), tokenUntil := Some(s.clock + 5 * 60), attempts := s.op.value.attempts + 1);
            Step(Step(s, Claim(t)), Load(t)) == s.(op := Some(row), attempts := s.attempts[t := Loaded(row)])
  {
    hide ClaimReconciliation, Exhausted;
    ClaimIff(s, t);
  }

  lemma LoadedReplays(s: Saga, t: Token, result: ProviderResult)
    requires s.op.Some? && t in s.attempts && s.attempts[t] == Loaded(s.op.value) && PastReplay(s.op.value, s.clock)
    requires s.op.value.transaction.None? && s.op.value.yookassa && s.op.value.owner.Some?
    requires s.op.value.request == Some(GatewayRequest(true))
    ensures LateCall(s, t, result)
  {
  }

  const Answer := ProviderResult(1, None, PaymentStore.Pending)

  /** The check comes within the window, and the claim of the same block after it. */
  lemma LateClaimReplays(start: int)
    ensures exists before, t: Token, after ::
              var s := Run(Fresh(start), before);
              && t !in s.attempts && s.op.Some? && Adrift(s.op.value, s.clock)
              && s.op.value.token.None? && !PastReplay(s.op.value, s.clock)
              && LateCall(Run(Step(s, Check(t)), after), t, Answer)
  {
    hide Run, Step, LateCall;
    HandlerDies(start);
    var wait := Tick(23 * 3600 - 1);
    RunExtends(Fresh(start), Dying, wait);
    Ticks(Run(Fresh(start), Dying), 23 * 3600 - 1);
    var s := Run(Fresh(start), Dying + [wait]);
    CheckIff(s, 1);
    var s1 := Step(s, Check(1));
    var after := [Tick(1), Claim(1), Load(1)];
    Ticks(s1, 1);
    ClaimsAndLoads(Step(s1, Tick(1)), 1, s.clock);
    RunThree(s1, after[0], after[1], after[2]);
    assert after == [after[0], after[1], after[2]];
    LoadedReplays(Run(s1, after), 1, Answer);
    assert 1 !in s.attempts;
  }

  /** Or it finds the row claimed, past the window, and is made to wait until it is let go. */
  lemma ClaimedRowReplays(start: int)
    ensures exists before, t: Token, after ::
              var s := Run(Fresh(start), before);
              && t !in s.attempts && s.op.Some? && Adrift(s.op.value, s.clock)
              && s.op.value.token.Some? && PastReplay(s.op.value, s.clock)
              && LateCall(Run(Step(s, Check(t)), after), t, Answer)
  {
    hide Run, Step, LateCall;
    HandlerDies(start);
    var s0 := Run(Fresh(start), Dying);
    // The first attempt claims ten seconds before the window ends.
    var wait, holding := Tick(23 * 3600 - 10), [Check(1), Claim(1), Load(1)];
    RunExtends(Fresh(start), Dying, wait);
    Ticks(s0, 23 * 3600 - 10);
    var s1 := Step(s0, wait);
    CheckIff(s1, 1);
    ClaimsAndLoads(Step(s1, Check(1)), 1, s1.clock);
    RunThree(s1, Check(1), Claim(1), Load(1));
    RunAppends(Fresh(start), Dying + [wait], holding);
    var s2 := Run(s1, holding);
    Ticks(s2, 10);
    RunExtends(Fresh(start), Dying + [wait] + holding, Tick(10));
    // The second one checks at its end, and claims when the first has failed and its delay is over.
    var s := Step(s2, Tick(10));
    CheckIff(s, 2);
    var s3 := Step(s, Check(2));
    var failing := [Fail(1, Transient), Settle(1), Tick(10)];
    LetsGo(s3, 1);
    RunThree(s3, failing[0], failing[1], failing[2]);
    assert failing == [failing[0], failing[1], failing[2]];
    var s4 := Run(s3, failing);
    ClaimsAndLoads(s4, 2, s.clock);
    RunExtends(s3, failing, Claim(2));
    RunExtends(s3, failing + [Claim(2)], Load(2));
    LoadedReplays(Step(Step(s4, Claim(2)), Load(2)), 2, Answer);
    assert 2 !in s.attempts;
  }

  /** An attempt on its first try fails transiently: the row is due again ten seconds later. */
  lemma LetsGo(s: Saga, t: Token)
    requires s.op.Some? && t in s.attempts && s.attempts[t] == Loaded(s.op.value) && Holds(s, t, s.op.value) && s.op.value.attempts == 1
    ensures Step(Step(Step(s, Fail(t, Transient)), Settle(t)), Tick(10))
            == s.(op := Some(s.op.value.(token := None, tokenUntil := None, nextAttempt := Some(s.clock + 10))),
                  attempts := s.attempts[t := Over], clock := s.clock + 10)
  {
    Fails(s, t);
    hide Step;
    var s1 := Step(s, Fail(t, Transient));
    SettleIff(s1, t);
    assert Min(300, 5 * Pow2(Min(1, 6))) == 10;
    Ticks(Step(s1, Settle(t)), 10);
  }

  lemma Fails(s: Saga, t: Token)
    requires t in s.attempts && s.attempts[t].Loaded?
    ensures Step(s, Fail(t, Transient)) == s.(attempts := s.attempts[t := Failing(s.attempts[t].record, Transient)])
  {
  }
}
