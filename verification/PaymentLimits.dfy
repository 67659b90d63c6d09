/** How often an operation is claimed for reconciliation, and how long it waits in between. */
module PaymentLimits {
  import opened Common
  import opened PaymentStore
  import opened PaymentSaga
  import opened PaymentSafety
  import opened PaymentTheorems

  // ---------------------------------------------------------------- the attempt counter counts claims

  function Attempts(s: Saga): nat {
    if s.op.Some? then s.op.value.attempts else 0
  }

  /** The action is a claim, and it wins. */
  predicate Wins(s: Saga, a: Action) {
    a.Claim? && a.token in s.attempts && s.attempts[a.token].Checked?
    && a.token in Step(s, a).attempts && Step(s, a).attempts[a.token].Holder?
  }

  function WonClaims(s: Saga, actions: seq<Action>): nat
    decreases |actions|
  {
    if actions == [] then 0 else (if Wins(s, actions[0]) then 1 else 0) + WonClaims(Step(s, actions[0]), actions[1..])
  }

  lemma StepPaces(s: Saga, a: Action)
    requires !a.Claim?
    ensures Paced(s, Step(s, a))
  {
    hide DoStart, DoCross, DoCharge, DoRecord, DoCommit, DoStop, DoCheck, DoClaim, DoUseStored, DoCheckpoint, DoCompleteResult,
         DoCompleteLinked, DoLinkLocal, DoSettle, DoLoad, MayRecreate;
  }

  lemma StepCounts(s: Saga, a: Action)
    requires SagaOk(s)
    ensures Attempts(Step(s, a)) == Attempts(s) + if Wins(s, a) then 1 else 0
  {
    if a.Claim? {
      hide CountOk, TxnOk, AttemptOk, CallerOk, CallOk;
    } else {
      StepPaces(s, a);
    }
  }

  lemma {:induction false} ClaimsAreCounted(s: Saga, actions: seq<Action>)
    requires SagaOk(s)
    ensures Attempts(Run(s, actions)) == Attempts(s) + WonClaims(s, actions)
    decreases |actions|
  {
    hide SagaOk, Step, Wins;
    if actions != [] {
      StepKeeps(s, actions[0]);
      StepCounts(s, actions[0]);
      ClaimsAreCounted(Step(s, actions[0]), actions[1..]);
    }
  }

  // ---------------------------------------------------------------- the bound

  /** Whatever happens, thirteen claims at most. */
  lemma AtMostThirteenClaims(clock: int, actions: seq<Action>)
    ensures WonClaims(Fresh(clock), actions) <= MAX_RECONCILIATION_ATTEMPTS + 1
  {
    hide Run, WonClaims;
    FreshIsOk(clock);
    RunKeeps(Fresh(clock), actions);
    ClaimsAreCounted(Fresh(clock), actions);
  }

  /** The claiming statement runs on a row that it matches and that has had its twelve attempts. */
  predicate Overclaims(s: Saga, a: Action) {
    && a.Claim? && InPhase(s, a) && s.op.Some? && s.op.value.id == s.attempts[a.token].op
    && s.op.value.status == Unknown && s.op.value.token.None? && s.op.value.attempts == MAX_RECONCILIATION_ATTEMPTS
    && (s.op.value.nextAttempt.None? || s.op.value.nextAttempt.value <= s.clock)
  }

  predicate NeverOverclaims(s: Saga, actions: seq<Action>)
    decreases |actions|
  {
    actions == [] || (!Overclaims(s, actions[0]) && NeverOverclaims(Step(s, actions[0]), actions[1..]))
  }

  lemma OverclaimIsTheThirteenth(s: Saga, a: Action)
    requires SagaOk(s) && Attempts(s) <= MAX_RECONCILIATION_ATTEMPTS
    ensures Attempts(Step(s, a)) > MAX_RECONCILIATION_ATTEMPTS <==> Overclaims(s, a)
  {
    StepCounts(s, a);
    if a.Claim? {
      hide SagaOk;
    }
  }

  lemma {:induction false} TwelveUnlessOverclaimed(s: Saga, actions: seq<Action>)
    requires SagaOk(s) && Attempts(s) <= MAX_RECONCILIATION_ATTEMPTS
    ensures Attempts(Run(s, actions)) <= MAX_RECONCILIATION_ATTEMPTS <==> NeverOverclaims(s, actions)
    decreases |actions|
  {
    hide SagaOk, Step, Overclaims;
    if actions != [] {
      StepKeeps(s, actions[0]);
      OverclaimIsTheThirteenth(s, actions[0]);
      if Overclaims(s, actions[0]) {
        OverclaimedStays(s, actions[0], actions[1..]);
      } else {
        TwelveUnlessOverclaimed(Step(s, actions[0]), actions[1..]);
      }
    }
  }

  lemma OverclaimedStays(s: Saga, a: Action, actions: seq<Action>)
    requires SagaOk(s) && Overclaims(s, a)
    ensures Attempts(Run(Step(s, a), actions)) > MAX_RECONCILIATION_ATTEMPTS
  {
    hide Run;
    StepKeeps(s, a);
    OverclaimIsTheThirteenth(s, a);
    assert Step(s, a).op.Some? && Started(Step(s, a).op.value);
    RunEvolves(Step(s, a), actions);
  }

  /** Twelve claims are kept to exactly when no claim runs on a due row that has had twelve. */
  lemma AtMostTwelveClaimsIff(clock: int, actions: seq<Action>)
    ensures WonClaims(Fresh(clock), actions) <= MAX_RECONCILIATION_ATTEMPTS <==> NeverOverclaims(Fresh(clock), actions)
  {
    hide Run, WonClaims, NeverOverclaims;
    FreshIsOk(clock);
    TwelveUnlessOverclaimed(Fresh(clock), actions);
    ClaimsAreCounted(Fresh(clock), actions);
  }

  /** Every claim comes less than five seconds after the check of the same block. */
  predicate Prompt(s: Saga, actions: seq<Action>)
    decreases |actions|
  {
    actions == [] ||
    (&& (actions[0].Claim? && InPhase(s, actions[0]) ==> s.clock < s.attempts[actions[0].token].at + MIN_RETRY_SECONDS)
     && Prompt(Step(s, actions[0]), actions[1..]))
  }

  /** A row that has had its twelve attempts is not due before every check made so far is five seconds old. */
  predicate DueLate(s: Saga) {
    s.op.Some? && s.op.value.attempts == MAX_RECONCILIATION_ATTEMPTS && s.op.value.status == Unknown && s.op.value.token.None? ==>
      && s.op.value.nextAttempt.Some?
      && forall t :: t in s.attempts && s.attempts[t].Checked? ==>
           s.attempts[t].at + MIN_RETRY_SECONDS <= s.op.value.nextAttempt.value
  }

  lemma ClaimKeepsDueLate(s: Saga, a: Action)
    requires DueLate(s) && a.Claim?
    ensures DueLate(Step(s, a))
  {
  }

  lemma StepKeepsDueLate(s: Saga, a: Action)
    requires SagaOk(s) && DueLate(s)
    ensures DueLate(Step(s, a))
  {
    hide Step, CountOk, TxnOk, CallerOk, CallOk;
    if a.Claim? {
      ClaimKeepsDueLate(s, a);
    } else {
      StepPaces(s, a);
      StepTouches(s, a);
      if Step(s, a) != s && !a.Check? {
        ChecksAreOld(s);
      }
    }
  }

  lemma ChecksAreOld(s: Saga)
    requires SagaOk(s)
    ensures forall t :: t in s.attempts && s.attempts[t].Checked? ==> s.attempts[t].at <= s.clock
  {
    forall t | t in s.attempts && s.attempts[t].Checked?
      ensures s.attempts[t].at <= s.clock
    {
      assert AttemptOk(t, s.attempts[t], s.op, s.nextId, s.clock);
    }
  }

  /** So a thirteenth claim comes five seconds or more after its check, and finds a fulfillment already linked. */
  lemma OverclaimIsLate(s: Saga, a: Action)
    requires SagaOk(s) && DueLate(s) && Overclaims(s, a)
    ensures s.attempts[a.token].at + MIN_RETRY_SECONDS <= s.clock && s.op.value.transaction.Some?
  {
    hide RowOk, TxnOk, AttemptOk, CallerOk, CallOk;
  }

  lemma {:induction false} PromptNeverOverclaims(s: Saga, actions: seq<Action>)
    requires SagaOk(s) && DueLate(s) && Prompt(s, actions)
    ensures NeverOverclaims(s, actions)
    decreases |actions|
  {
    hide SagaOk, Step, DueLate;
    if actions != [] {
      StepKeeps(s, actions[0]);
      StepKeepsDueLate(s, actions[0]);
      if Overclaims(s, actions[0]) {
        OverclaimIsLate(s, actions[0]);
      }
      PromptNeverOverclaims(Step(s, actions[0]), actions[1..]);
    }
  }

  /** With prompt claims, twelve at most. */
  lemma AtMostTwelvePromptClaims(clock: int, actions: seq<Action>)
    requires Prompt(Fresh(clock), actions)
    ensures WonClaims(Fresh(clock), actions) <= MAX_RECONCILIATION_ATTEMPTS
  {
    hide Run, WonClaims, Prompt, NeverOverclaims;
    FreshIsOk(clock);
    PromptNeverOverclaims(Fresh(clock), actions);
    AtMostTwelveClaimsIff(clock, actions);
  }

  /** A row out of attempts is made manual by the next request that looks at it. */
  lemma ExhaustedIsMadeManual(s: Saga, t: Token)
    requires SagaOk(s) && t !in s.attempts && s.op.Some?
    requires s.op.value.status == Unknown && s.op.value.token.None? && s.op.value.attempts >= MAX_RECONCILIATION_ATTEMPTS
    ensures Step(s, Check(t)).op.Some? && Step(s, Check(t)).op.value.status == ManualRequired
    ensures Step(s, Check(t)).attempts[t] == Over
  {
  }

  /** And one whose attempt died with its lease is made manual by the sweep. */
  lemma LostAttemptIsMadeManual(s: Saga)
    requires SagaOk(s) && s.op.Some? && s.op.value.status == Unknown && s.op.value.token.Some?
    requires s.op.value.tokenUntil.value <= s.clock
    ensures Step(s, SweepLeases).op.Some? && Step(s, SweepLeases).op.value.status == ManualRequired
  {
  }

  // ---------------------------------------------------------------- the bound of twelve needs prompt claims

  /** A free local operation whose handler died, after `n` attempts that all failed transiently. */
  predicate Waiting(s: Saga, n: nat) {
    && s.op.Some? && s.op.value.status == Unknown && s.op.value.mode == LocalMode && s.op.value.attempts == n
    && s.op.value.token.None? && s.op.value.transaction.None? && s.op.value.result.None?
    && s.op.value.terms == Some(Terms("deal", true, true)) && s.op.value.request == Some(LocalRequest(7))
    && (s.op.value.nextAttempt.None? || s.op.value.nextAttempt.value <= s.clock)
    && s.txns == map[] && s.nextTxn == 1
    && forall t :: t in s.attempts ==> t < n
  }

  function Round(n: nat): seq<Action> {
    [Check(n), Claim(n), Load(n), Fail(n, Transient), Settle(n), Tick(MAX_RETRY_SECONDS)]
  }

  /** An attempt's steps, for a row that is LOCAL, UNKNOWN, unclaimed and due. */
  predicate Idle(s: Saga) {
    && s.op.Some? && s.op.value.status == Unknown && s.op.value.mode == LocalMode && s.op.value.token.None?
    && (s.op.value.nextAttempt.None? || s.op.value.nextAttempt.value <= s.clock)
  }

  function Holding(s: Saga, t: Token): Saga
    requires s.op.Some?
  {
    var op := s.op.value.(token := Some(t), tokenUntil := Some(s.clock + RECONCILIATION_LEASE), attempts := s.op.value.attempts + 1);
    s.(op := Some(op), attempts := s.attempts[t := Holder(op.id)])
  }

  lemma Checks(s: Saga, t: Token)
    requires Idle(s) && s.op.value.attempts < MAX_RECONCILIATION_ATTEMPTS && t !in s.attempts
    ensures Step(s, Check(t)) == s.(attempts := s.attempts[t := Checked(s.op.value.id, s.clock)])
  {
  }

  lemma Claims(s: Saga, t: Token, at: int)
    requires Idle(s) && t in s.attempts && s.attempts[t] == Checked(s.op.value.id, at)
    ensures Step(s, Claim(t)) == Holding(s, t)
  {
  }

  lemma Loads(s: Saga, t: Token)
    requires s.op.Some? && t in s.attempts && s.attempts[t] == Holder(s.op.value.id)
    ensures Step(s, Load(t)) == s.(attempts := s.attempts[t := Loaded(s.op.value)])
  {
  }

  lemma Settles(s: Saga, t: Token)
    requires s.op.Some? && Owned(s.op.value, t, s.clock) && s.op.value.attempts < MAX_RECONCILIATION_ATTEMPTS
    requires t in s.attempts && s.attempts[t] == Failing(s.op.value, Transient)
    ensures var op := s.op.value;
            Step(s, Settle(t)) == s.(op := Some(op.(token := None, tokenUntil := None,
                                                    nextAttempt := Some(s.clock + RetryDelay(op.attempts)))),
                                     attempts := s.attempts[t := Over])
  {
  }

  lemma Fails(s: Saga, t: Token)
    requires t in s.attempts && s.attempts[t].Loaded?
    ensures Step(s, Fail(t, Transient)) == s.(attempts := s.attempts[t := Failing(s.attempts[t].record, Transient)])
  {
  }

  lemma Ticks(s: Saga, seconds: nat)
    ensures Step(s, Tick(seconds)) == s.(clock := s.clock + seconds)
  {
  }

  lemma OneRound(s: Saga, n: nat)
    requires Waiting(s, n) && n + 1 < MAX_RECONCILIATION_ATTEMPTS
    ensures Waiting(Run(s, Round(n)), n + 1)
  {
    hide Run, Step;
    var s1 := s.(attempts := s.attempts[n := Checked(s.op.value.id, s.clock)]);
    var s2 := Holding(s1, n);
    var s3 := s2.(attempts := s2.attempts[n := Loaded(s2.op.value)]);
    var s4 := s3.(attempts := s3.attempts[n := Failing(s2.op.value, Transient)]);
    Checks(s, n);
    Claims(s1, n, s.clock);
    Loads(s2, n);
    Fails(s3, n);
    Settles(s4, n);
    Ticks(Step(s4, Settle(n)), MAX_RETRY_SECONDS);
    RunSix(s, Round(n));
  }

  lemma RunThree(s: Saga, a: seq<Action>)
    requires |a| == 3
    ensures Run(s, a) == Step(Step(Step(s, a[0]), a[1]), a[2])
  {
    hide Step;
    assert a[1..][1..] == a[2..] && a[2..][1..] == [];
    assert Run(Step(Step(s, a[0]), a[1]), a[2..]) == Step(Step(Step(s, a[0]), a[1]), a[2]);
  }

  lemma RunSix(s: Saga, a: seq<Action>)
    requires |a| == 6
    ensures Run(s, a) == Step(Step(Step(Step(Step(Step(s, a[0]), a[1]), a[2]), a[3]), a[4]), a[5])
  {
    hide Step, Run;
    assert a == a[..3] + a[3..];
    RunAppends(s, a[..3], a[3..]);
    RunThree(s, a[..3]);
    RunThree(Run(s, a[..3]), a[3..]);
  }

  function Rounds(n: nat): seq<Action> {
    if n == 0 then [] else Rounds(n - 1) + Round(n - 1)
  }

  lemma {:induction false} ManyRounds(s: Saga, n: nat)
    requires Waiting(s, 0) && n <= MAX_RECONCILIATION_ATTEMPTS - 1
    ensures Waiting(Run(s, Rounds(n)), n)
  {
    hide Waiting, Step;
    if n > 0 {
      ManyRounds(s, n - 1);
      RunAppends(s, Rounds(n - 1), Round(n - 1));
      OneRound(Run(s, Rounds(n - 1)), n - 1);
    }
  }

  const FreePlan := Plan(false, Terms("deal", true, true), LocalRequest(7), None, LocalMode, None)

  /** The twelfth attempt links the transaction and lets the row go; a thirteenth had been checked before that. */
  const LateClaim := [Check(11), Check(12), Claim(11), Load(11), UseStored(11), Checkpoint(11), LinkLocal(11), Tick(5), Claim(12)]

  /** The row of a local attempt that is about to obtain its result. */
  predicate Local(s: Saga, t: Token) {
    && s.op.Some? && t in s.attempts && Owned(s.op.value, t, s.clock) && s.op.value.transaction.None?
    && s.op.value.terms == Some(Terms("deal", true, true)) && s.op.value.request == Some(LocalRequest(7))
    && s.op.value.mode == LocalMode && s.txns == map[] && s.nextTxn == 1
  }

  const LocalResult := ProviderResult(7, None, PaymentStore.Local)

  lemma Obtains(s: Saga, t: Token)
    requires Local(s, t) && s.op.value.result.None? && s.attempts[t] == Loaded(s.op.value)
    ensures Step(s, UseStored(t)) == s.(attempts := s.attempts[t := Obtained(s.op.value, LocalResult)])
  {
    hide Owned;
  }

  lemma Checkpoints(s: Saga, t: Token)
    requires Local(s, t) && s.op.value.result.None? && s.attempts[t] == Obtained(s.op.value, LocalResult)
    ensures Step(s, Checkpoint(t)) == s.(op := Some(s.op.value.(result := Some(LocalResult))),
                                         attempts := s.attempts[t := Ready(s.op.value, LocalResult)])
  {
  }

  /** A local attempt that holds its result links the transaction and lets the row go. */
  lemma LinksLocal(s: Saga, t: Token)
    requires Local(s, t) && s.op.value.result == Some(LocalResult) && s.attempts[t].Ready?
    requires s.attempts[t] == Ready(s.op.value.(result := None), LocalResult)
    ensures Step(s, LinkLocal(t)).op
            == Some(s.op.value.(transaction := Some(1), token := None, tokenUntil := None,
                                nextAttempt := Some(s.clock + MIN_RETRY_SECONDS)))
    ensures Step(s, LinkLocal(t)).attempts == s.attempts[t := Over] && Step(s, LinkLocal(t)).clock == s.clock
  {
    assert !PaymentTaken(s, 7);
  }

  lemma RunNine(s: Saga, a: seq<Action>)
    requires |a| == 9
    ensures var s6 := Step(Step(Step(Step(Step(Step(s, a[0]), a[1]), a[2]), a[3]), a[4]), a[5]);
            Run(s, a) == Step(Step(Step(s6, a[6]), a[7]), a[8])
  {
    hide Step, Run;
    assert a == a[..6] + a[6..];
    RunAppends(s, a[..6], a[6..]);
    RunSix(s, a[..6]);
    RunThree(Run(s, a[..6]), a[6..]);
  }

  lemma LateClaimWins(s: Saga)
    requires Waiting(s, 11)
    ensures Attempts(Run(s, LateClaim)) == 13
  {
    hide Run, Step;
    var s1 := s.(attempts := s.attempts[11 := Checked(s.op.value.id, s.clock)]);
    var s2 := s1.(attempts := s1.attempts[12 := Checked(s.op.value.id, s.clock)]);
    var s3 := Holding(s2, 11);
    var s4 := s3.(attempts := s3.attempts[11 := Loaded(s3.op.value)]);
    var s5 := s4.(attempts := s4.attempts[11 := Obtained(s4.op.value, LocalResult)]);
    var s6 := s5.(op := Some(s5.op.value.(result := Some(LocalResult))),
                  attempts := s5.attempts[11 := Ready(s5.op.value, LocalResult)]);
    var s7 := Step(s6, LinkLocal(11));
    var s8 := Step(s7, Tick(5));
    Checks(s, 11);
    Checks(s1, 12);
    Claims(s2, 11, s.clock);
    Loads(s3, 11);
    Obtains(s4, 11);
    Checkpoints(s5, 11);
    LinksLocal(s6, 11);
    Ticks(s7, 5);
    assert s8.attempts[12] == s2.attempts[12];
    Claims(s8, 12, s.clock);
    RunNine(s, LateClaim);
  }

  lemma Starts(clock: int)
    ensures Step(Fresh(clock), Start(0, "hash", 5))
            == Fresh(clock).(op := Some(NewOp(1, "hash", 5, clock)), nextId := 2,
                             callers := map[0 := Leader(1, 5, clock + CLAIM_LEASE)])
  {
  }

  lemma CrossesFree(s: Saga)
    requires s.op.Some? && s.op.value.status == Claimed
    requires 0 in s.callers && s.callers[0].Leader? && s.callers[0].op == s.op.value.id
    ensures Step(s, Cross(0, FreePlan))
            == s.(op := MarkProcessing(s.op.value, FreePlan, s.clock), crossings := s.crossings + [s.op.value.id],
                  callers := s.callers[0 := Crossed(s.op.value.id, s.callers[0].key, FreePlan)])
  {
  }

  lemma Dies(s: Saga)
    requires s.op.Some? && s.op.value.status == Processing
    requires 0 in s.callers && s.callers[0].Crossed? && s.callers[0].op == s.op.value.id
    ensures Step(s, Stop(0)) == s.(op := MarkUnknown(s.op.value), callers := s.callers[0 := Finished])
  {
  }

  lemma HandlerDies(clock: int)
    ensures Waiting(Run(Fresh(clock), [Start(0, "hash", 5), Cross(0, FreePlan), Stop(0)]), 0)
  {
    hide Run, Step;
    var empty := Fresh(clock);
    var op := NewOp(1, "hash", 5, clock);
    var started := empty.(op := Some(op), nextId := 2, callers := map[0 := Leader(1, 5, clock + CLAIM_LEASE)]);
    Starts(clock);
    CrossesFree(started);
    Dies(Step(started, Cross(0, FreePlan)));
    RunThree(empty, [Start(0, "hash", 5), Cross(0, FreePlan), Stop(0)]);
  }

  /** Thirteen claims do happen: a check waits just the five seconds that a prompt claim would not have. */
  lemma ThirteenClaimsHappen(clock: int)
    ensures exists actions :: WonClaims(Fresh(clock), actions) == MAX_RECONCILIATION_ATTEMPTS + 1
  {
    hide Run, Step, WonClaims;
    var a := [Start(0, "hash", 5), Cross(0, FreePlan), Stop(0)];
    HandlerDies(clock);
    ManyRounds(Run(Fresh(clock), a), 11);
    LateClaimWins(Run(Run(Fresh(clock), a), Rounds(11)));
    RunAppends(Fresh(clock), a, Rounds(11));
    RunAppends(Fresh(clock), a + Rounds(11), LateClaim);
    FreshIsOk(clock);
    ClaimsAreCounted(Fresh(clock), a + Rounds(11) + LateClaim);
    assert WonClaims(Fresh(clock), a + Rounds(11) + LateClaim) == MAX_RECONCILIATION_ATTEMPTS + 1;
  }

  // ---------------------------------------------------------------- the delay

  lemma {:induction false} Pow2Grows(m: nat, n: nat)
    requires m <= n
    ensures 1 <= Pow2(m) <= Pow2(n)
  {
    if m < n {
      Pow2Grows(m, n - 1);
    } else if m > 0 {
      Pow2Grows(m - 1, m - 1);
    }
  }

  /** Delays never shrink from one attempt to the next, and lie between ten and three hundred seconds. */
  lemma DelaysGrow(m: nat, n: nat)
    requires 1 <= m <= n
    ensures 10 <= RetryDelay(m) <= RetryDelay(n) <= 300
  {
    Pow2Grows(1, Min(m, 6));
    Pow2Grows(Min(m, 6), Min(n, 6));
  }
}
