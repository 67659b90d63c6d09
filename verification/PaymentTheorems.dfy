/** What holds over whole runs of the payment saga. */
module PaymentTheorems {
  import opened Common
  import opened PaymentStore
  import opened PaymentSaga
  import opened PaymentSafety

  lemma {:induction false} RunAppends(s: Saga, first: seq<Action>, second: seq<Action>)
    ensures Run(s, first + second) == Run(Run(s, first), second)
    decreases |first|
  {
    if first == [] {
      assert first + second == second;
    } else {
      assert (first + second)[1..] == first[1..] + second;
      RunAppends(Step(s, first[0]), first[1..], second);
    }
  }

  lemma RunExtends(s: Saga, actions: seq<Action>, a: Action)
    ensures Run(s, actions + [a]) == Step(Run(s, actions), a)
  {
    RunAppends(s, actions, [a]);
    assert [a][1..] == [];
  }

  // ---------------------------------------------------------------- the row over time

  /** Once started, the operation keeps its id, key, hash, request and terms, its payment id and its link. */
  lemma {:induction false} RunEvolves(s: Saga, actions: seq<Action>)
    requires SagaOk(s) && s.op.Some? && Started(s.op.value)
    ensures Run(s, actions).op.Some? && Evolves(s.op.value, Run(s, actions).op.value)
    decreases |actions|
  {
    hide SagaOk, Step;
    if actions != [] {
      StepKeeps(s, actions[0]);
      RunEvolves(Step(s, actions[0]), actions[1..]);
    }
  }

  /** SUCCEEDED and MANUAL_REQUIRED are final. */
  lemma {:induction false} SettledIsFinal(s: Saga, actions: seq<Action>)
    requires SagaOk(s) && s.op.Some? && Settled(s.op.value)
    ensures Run(s, actions).op == s.op
    decreases |actions|
  {
    hide SagaOk, Step;
    if actions != [] {
      StepKeeps(s, actions[0]);
      SettledIsFinal(Step(s, actions[0]), actions[1..]);
    }
  }

  // ---------------------------------------------------------------- what an action can touch

  function CallerOf(a: Action): Option<int> {
    match a
    case Start(c, _, _) => Some(c)
    case Cross(c, _) => Some(c)
    case Charge(c, _) => Some(c)
    case Record(c) => Some(c)
    case Commit(c) => Some(c)
    case Stop(c) => Some(c)
    case _ => None
  }

  function TokenOf(a: Action): Option<Token> {
    match a
    case Check(t) => Some(t)
    case Claim(t) => Some(t)
    case Load(t) => Some(t)
    case Recreate(t, _) => Some(t)
    case UseStored(t) => Some(t)
    case Checkpoint(t) => Some(t)
    case CompleteResult(t, _, _) => Some(t)
    case CompleteLinked(t) => Some(t)
    case LinkLocal(t) => Some(t)
    case Fail(t, _) => Some(t)
    case Settle(t) => Some(t)
    case _ => None
  }

  predicate Crosses(s: Saga, a: Action) {
    a.Cross? && a.caller in s.callers && s.callers[a.caller].Leader? && s.op.Some? && s.op.value.status == Claimed
  }

  /** Handlers and attempts move their own phase only; two actions call the provider, one starts work on a row. */
  predicate Touches(s: Saga, s': Saga, a: Action) {
    if CallerOf(a).Some? then
      var c := CallerOf(a).value;
      && OnlyCaller(s, s', c)
      && (s'.calls == s.calls
          || (c in s.callers && s.callers[c].Crossed? && s'.calls == s.calls + [Call(s.callers[c].op, s.callers[c].key, ByCaller(c))]))
      && (s'.callers[c].Crossed? ==> Crosses(s, a) && s'.calls == s.calls && s'.crossings == s.crossings + [s.callers[c].op])
      && (!s'.callers[c].Crossed? ==> s'.crossings == s.crossings)
      && (s'.callers[c].Leader? ==> a.Start?)
      && (Crossing(s'.callers[c]) && !s'.callers[c].Crossed? ==> c in s.callers && Crossing(s.callers[c]))
    else if TokenOf(a).Some? then
      var t := TokenOf(a).value;
      && t in s'.attempts && OnlyAttempt(s.(calls := s'.calls), s', t)
      && (s'.calls != s.calls ==>
            t in s.attempts && s.attempts[t].Loaded? && MayRecreate(s.attempts[t].record)
            && s'.calls == s.calls + [Call(s.attempts[t].record.id, s.attempts[t].record.key, ByAttempt(t, s.attempts[t].record))])
      && (s'.attempts[t].Loaded? ==> s.op == Some(s'.attempts[t].record) && s'.op == s.op)
      && (s'.attempts[t].Checked? ==>
            && a.Check? && s'.op.Some? && s'.attempts[t].at == s.clock
            && (s'.op.value.token.None? ==> s'.op.value.attempts < MAX_RECONCILIATION_ATTEMPTS))
    else
      s' == s.(clock := s'.clock, op := s'.op, txns := s'.txns)
  }

  lemma StepTouches(s: Saga, a: Action)
    ensures Step(s, a) == s || (InPhase(s, a) && Touches(s, Step(s, a), a))
  {
    hide DoStart, DoCross, DoCharge, DoRecord, DoCommit, DoStop, DoCheck, DoClaim, DoUseStored, DoCheckpoint, DoCompleteResult,
         DoCompleteLinked, DoLinkLocal, DoSettle, DoLoad, MayRecreate;
  }

  // ---------------------------------------------------------------- provider calls

  /** Every create call names the operation and its one stored key; a reconciling caller had read neither result nor link. */
  lemma CallsCarryTheStoredKey(clock: int, actions: seq<Action>)
    ensures var s := Run(Fresh(clock), actions);
            forall c :: c in s.calls ==>
              && s.op.Some? && c.op == s.op.value.id && c.key == s.op.value.key
              && (c.who.ByAttempt? ==>
                    c.who.record.result.None? && c.who.record.transaction.None? && c.who.record.mode == YookassaReplay)
  {
    hide Run, Fresh;
    FreshIsOk(clock);
    RunKeeps(Fresh(clock), actions);
  }

  /** The key is the one the first leader was given: nothing changes it while the row lives. */
  lemma {:induction false} KeyStays(s: Saga, actions: seq<Action>)
    requires SagaOk(s) && s.op.Some?
    requires Run(s, actions).op.Some? && Run(s, actions).op.value.id == s.op.value.id
    ensures Run(s, actions).op.value.key == s.op.value.key && Run(s, actions).op.value.hash == s.op.value.hash
    decreases |actions|
  {
    hide SagaOk, Step;
    if actions != [] {
      StepKeeps(s, actions[0]);
      if Step(s, actions[0]).op.None? {
        assert s.op.value.id < s.nextId && Step(s, actions[0]).nextId >= s.nextId by { StepIds(s, actions[0]); }
        DeletedIdsNeverReturn(Step(s, actions[0]), actions[1..], s.op.value.id);
      } else {
        KeyStays(Step(s, actions[0]), actions[1..]);
      }
    }
  }

  lemma NoRowNoWork(s: Saga, a: Action)
    requires SagaOk(s) && s.op.None?
    ensures if a.Start? then Step(s, a).op.Some? ==> Step(s, a).op.value.id == s.nextId && Step(s, a).nextId == s.nextId + 1
            else Step(s, a).op.None? && Step(s, a).nextId == s.nextId
  {
    if !a.Start? {
      StepTouches(s, a);
    }
  }

  lemma StepIds(s: Saga, a: Action)
    requires SagaOk(s)
    ensures s.nextId <= Step(s, a).nextId && (s.op.Some? ==> s.op.value.id < s.nextId)
    ensures s.op.None? && Step(s, a).op.Some? ==> Step(s, a).op.value.id == s.nextId
  {
    StepKeeps(s, a);
    hide CountOk, RowOk, TxnOk, CallOk, AttemptOk, CallerOk;
    if s.op.None? {
      NoRowNoWork(s, a);
    } else {
      StepTouches(s, a);
    }
  }

  lemma {:induction false} DeletedIdsNeverReturn(s: Saga, actions: seq<Action>, id: int)
    requires SagaOk(s) && id < s.nextId && (s.op.Some? ==> s.op.value.id != id)
    ensures Run(s, actions).op.Some? ==> Run(s, actions).op.value.id != id
    decreases |actions|
  {
    hide SagaOk, Step;
    if actions != [] {
      StepKeeps(s, actions[0]);
      StepIds(s, actions[0]);
      DeletedIdsNeverReturn(Step(s, actions[0]), actions[1..], id);
    }
  }

  /** A result is checkpointed, and nobody who read the row before that is about to call the provider. */
  predicate Quiet(s: Saga) {
    && s.op.Some? && s.op.value.result.Some?
    && (forall c :: c in s.callers ==> !s.callers[c].Crossed?)
    && (forall t :: t in s.attempts && s.attempts[t].Loaded? ==> !MayRecreate(s.attempts[t].record))
  }

  lemma LoadedStaysQuiet(s: Saga, a: Action)
    requires InPhase(s, a) && Quiet(s) && Touches(s, Step(s, a), a)
    ensures Step(s, a).calls == s.calls
    ensures forall t :: t in Step(s, a).attempts && Step(s, a).attempts[t].Loaded? ==> !MayRecreate(Step(s, a).attempts[t].record)
  {
    hide Step;
  }

  lemma StepStaysQuiet(s: Saga, a: Action)
    requires SagaOk(s) && Quiet(s)
    ensures Quiet(Step(s, a)) && Step(s, a).calls == s.calls
  {
    hide Step, CountOk, TxnOk, AttemptOk, CallerOk, CallOk, MayRecreate;
    StepKeeps(s, a);
    StepTouches(s, a);
    if Step(s, a) != s {
      LoadedStaysQuiet(s, a);
    }
  }

  /** From then on no create call is ever made again. */
  lemma {:induction false} NoCallAfterTheCheckpoint(s: Saga, actions: seq<Action>)
    requires SagaOk(s) && Quiet(s)
    ensures Run(s, actions).calls == s.calls
    decreases |actions|
  {
    hide SagaOk, Step, Quiet;
    if actions != [] {
      StepStaysQuiet(s, actions[0]);
      StepKeeps(s, actions[0]);
      NoCallAfterTheCheckpoint(Step(s, actions[0]), actions[1..]);
    }
  }

  /** The boundary before the side effect is crossed at most once per identity. */
  lemma OneCrossing(clock: int, actions: seq<Action>)
    ensures |Run(Fresh(clock), actions).crossings| <= 1
  {
    hide Run, Fresh;
    FreshIsOk(clock);
    RunKeeps(Fresh(clock), actions);
  }

  /** The request handler that crossed it makes at most one create call; all others are reconciliation's. */
  predicate OneHandler(s: Saga) {
    && (forall c, d :: c in s.callers && d in s.callers && Crossing(s.callers[c]) && Crossing(s.callers[d]) ==> c == d)
    && (forall i, c :: 0 <= i < |s.calls| && s.calls[i].who.ByCaller? && c in s.callers ==> !s.callers[c].Crossed?)
    && (forall i, j :: 0 <= i < j < |s.calls| && s.calls[i].who.ByCaller? ==> s.calls[j].who.ByAttempt?)
  }

  lemma NobodyHasCrossed(s: Saga)
    requires SagaOk(s) && s.op.Some? && s.op.value.status == Claimed
    ensures forall c :: c in s.callers ==> !Crossing(s.callers[c])
    ensures forall c :: c in s.calls ==> c.who.ByAttempt?
  {
    forall c | c in s.callers
      ensures !Crossing(s.callers[c])
    {
      assert CallerOk(s.callers[c], s.op, s.nextId);
    }
  }

  lemma StepKeepsOneHandler(s: Saga, a: Action)
    requires SagaOk(s) && OneHandler(s)
    ensures OneHandler(Step(s, a))
  {
    hide Step, SagaOk, MayRecreate, RouteOf;
    StepTouches(s, a);
    if Crosses(s, a) {
      NobodyHasCrossed(s);
    }
  }

  lemma {:induction false} OneHandlerCall(s: Saga, actions: seq<Action>)
    requires SagaOk(s) && OneHandler(s)
    ensures OneHandler(Run(s, actions))
    decreases |actions|
  {
    hide SagaOk, Step, OneHandler;
    if actions != [] {
      StepKeeps(s, actions[0]);
      StepKeepsOneHandler(s, actions[0]);
      OneHandlerCall(Step(s, actions[0]), actions[1..]);
    }
  }

  lemma HandlersCallOnce(clock: int, actions: seq<Action>, i: nat, j: nat)
    requires var calls := Run(Fresh(clock), actions).calls;
             i < j < |calls| && calls[i].who.ByCaller?
    ensures Run(Fresh(clock), actions).calls[j].who.ByAttempt?
  {
    hide Run;
    FreshIsOk(clock);
    OneHandlerCall(Fresh(clock), actions);
  }

  // ---------------------------------------------------------------- the local transaction

  /** At most one local transaction; it exists exactly when it is linked, and it is the checkpointed payment's. */
  lemma OneTransaction(clock: int, actions: seq<Action>)
    ensures var s := Run(Fresh(clock), actions);
            && |s.txns| <= 1
            && (s.txns != map[] <==> s.op.Some? && s.op.value.transaction.Some?)
            && forall t :: t in s.txns ==>
                 && s.op.Some? && s.op.value.transaction == Some(t) && s.op.value.result.Some?
                 && s.txns[t].payment == s.op.value.result.value.payment && Some(s.txns[t].terms) == s.op.value.terms
  {
    hide Run, Fresh;
    FreshIsOk(clock);
    RunKeeps(Fresh(clock), actions);
    var s := Run(Fresh(clock), actions);
    assert s.txns != map[] ==> |s.txns.Keys| == 1;
  }

  /** A link is never moved, and its transaction never becomes another payment's. */
  lemma LinkIsFinal(s: Saga, actions: seq<Action>)
    requires SagaOk(s) && s.op.Some? && s.op.value.transaction.Some?
    ensures var t := s.op.value.transaction.value;
            var s' := Run(s, actions);
            && s'.op.Some? && s'.op.value.transaction == Some(t)
            && t in s.txns && t in s'.txns && s'.txns[t].payment == s.txns[t].payment && s'.txns[t].terms == s.txns[t].terms
  {
    hide Run, AttemptOk, CallerOk, CallOk, CountOk;
    RunEvolves(s, actions);
    RunKeeps(s, actions);
  }

  /** A free or LOCAL operation is SUCCEEDED only with proof that its transaction was fulfilled. */
  lemma CompletedIsFulfilled(clock: int, actions: seq<Action>)
    ensures var s := Run(Fresh(clock), actions);
            s.op.Some? && s.op.value.status == Succeeded ==>
              && s.op.value.transaction.Some? && s.op.value.transaction.value in s.txns
              && (NeedsProof(s.op.value, s.txns[s.op.value.transaction.value]) ==>
                    ProvesFulfillment(s.txns[s.op.value.transaction.value]))
  {
    hide Run, Fresh;
    FreshIsOk(clock);
    RunKeeps(Fresh(clock), actions);
  }

  /** Two attempts are never at work together, and the one at work holds the row's token. */
  lemma OneAttemptAtATime(clock: int, actions: seq<Action>, t: Token, u: Token)
    requires var s := Run(Fresh(clock), actions);
             t in s.attempts && u in s.attempts && Active(s.attempts[t]) && Active(s.attempts[u])
    ensures var s := Run(Fresh(clock), actions);
            t == u && s.op.Some? && s.op.value.token == Some(t)
  {
    hide Run, Fresh;
    FreshIsOk(clock);
    RunKeeps(Fresh(clock), actions);
    var s := Run(Fresh(clock), actions);
    assert AttemptOk(t, s.attempts[t], s.op, s.nextId, s.clock);
    assert AttemptOk(u, s.attempts[u], s.op, s.nextId, s.clock);
  }

  // ---------------------------------------------------------------- start

  /** A caller with another request hash is refused, exactly then, and the row stays as it is. */
  lemma OtherRequestsConflict(s: Saga, caller: int, hash: string, key: ProviderKey)
    requires caller !in s.callers
    ensures StartRow(s, hash, key).1 == Conflict <==> s.op.Some? && s.op.value.hash != hash
    ensures StartRow(s, hash, key).1 == Conflict ==>
              Step(s, Start(caller, hash, key)) == s.(callers := s.callers[caller := Finished])
  {
  }
}
