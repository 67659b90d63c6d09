/** Who may lead an operation: the exclusivity of the claim lease, and where it ends. */
module PaymentLeaders {
  import opened Common
  import opened PaymentStore
  import opened PaymentSaga
  import opened PaymentSafety
  import opened PaymentTheorems

  /** A request handler that was told to lead, within its lease. */
  predicate Leads(s: Saga, c: int) {
    c in s.callers && s.callers[c].Leader? && s.clock < s.callers[c].until
  }

  /** An unexpired leader's lease is the row's lease; two leaders of a row share its key and not their time. */
  predicate LeaseOk(s: Saga) {
    && (forall c :: c in s.callers && Leads(s, c) && s.op.Some? && s.op.value.id == s.callers[c].op && s.op.value.status == Claimed ==>
          s.op.value.leaseUntil == Some(s.callers[c].until))
    && (forall c, d :: c in s.callers && d in s.callers && c != d && s.callers[c].Leader? && s.callers[d].Leader?
                       && s.callers[c].op == s.callers[d].op ==>
          s.callers[c].key == s.callers[d].key && !(Leads(s, c) && Leads(s, d)))
  }

  lemma StartKeepsLease(s: Saga, caller: int, hash: string, key: ProviderKey)
    requires SagaOk(s) && LeaseOk(s) && caller !in s.callers
    ensures LeaseOk(DoStart(s, caller, hash, key))
  {
    var s' := DoStart(s, caller, hash, key);
    forall c | c in s.callers && s.callers[c].Leader?
      ensures s.callers[c].op < s.nextId
      ensures s.op.Some? && s.op.value.id == s.callers[c].op ==> s.callers[c].key == s.op.value.key
    {
      assert CallerOk(s.callers[c], s.op, s.nextId);
    }
    hide CountOk, TxnOk, AttemptOk, CallerOk, CallOk;
  }

  /** Nothing but `start` makes a leader, and nothing but `start` touches the lease of a claimed row. */
  lemma OthersKeepLease(s: Saga, a: Action)
    requires SagaOk(s) && LeaseOk(s) && !a.Start?
    ensures LeaseOk(Step(s, a))
  {
    hide Step, SagaOk, InPhase, MayRecreate;
    StepTouches(s, a);
    StepClaims(s, a);
  }

  lemma StepClaims(s: Saga, a: Action)
    requires !a.Start?
    ensures NoNewClaim(s, Step(s, a)) && s.clock <= Step(s, a).clock
  {
    hide DoStart, DoCross, DoCharge, DoRecord, DoCommit, DoStop, DoCheck, DoClaim, DoUseStored, DoCheckpoint, DoCompleteResult,
         DoCompleteLinked, DoLinkLocal, DoSettle, DoLoad, MayRecreate;
  }

  lemma StepKeepsLease(s: Saga, a: Action)
    requires SagaOk(s) && LeaseOk(s)
    ensures LeaseOk(Step(s, a))
  {
    hide SagaOk, LeaseOk, DoStart;
    if a.Start? {
      if InPhase(s, a) {
        StartKeepsLease(s, a.caller, a.hash, a.key);
      }
    } else {
      OthersKeepLease(s, a);
    }
  }

  lemma {:induction false} RunKeepsLease(s: Saga, actions: seq<Action>)
    requires SagaOk(s) && LeaseOk(s)
    ensures LeaseOk(Run(s, actions))
    decreases |actions|
  {
    hide SagaOk, Step, LeaseOk;
    if actions != [] {
      StepKeeps(s, actions[0]);
      StepKeepsLease(s, actions[0]);
      RunKeepsLease(Step(s, actions[0]), actions[1..]);
    }
  }

  /** Leaders of one row hold one key, and no two of them hold an unexpired claim. */
  lemma LeadersOfARow(clock: int, actions: seq<Action>, c: int, d: int)
    requires var s := Run(Fresh(clock), actions);
             && c in s.callers && d in s.callers && c != d && s.callers[c].Leader? && s.callers[d].Leader?
             && s.callers[c].op == s.callers[d].op
    ensures var s := Run(Fresh(clock), actions);
            s.callers[c].key == s.callers[d].key && !(Leads(s, c) && Leads(s, d))
  {
    hide Run;
    FreshIsOk(clock);
    RunKeepsLease(Fresh(clock), actions);
  }

  // ---------------------------------------------------------------- one leader per identity

  /** A superseded leader gives up and deletes the row of the leader that succeeded it: the delete has no lease guard. */
  predicate Robs(s: Saga, a: Action) {
    && a.Stop? && InPhase(s, a) && s.callers[a.caller].Leader?
    && s.op.Some? && s.op.value.id == s.callers[a.caller].op && s.op.value.status == Claimed
    && exists d :: d in s.callers && d != a.caller && Leads(s, d) && s.callers[d].op == s.op.value.id
  }

  predicate NoRobbery(s: Saga, actions: seq<Action>)
    decreases |actions|
  {
    actions == [] || (!Robs(s, actions[0]) && NoRobbery(Step(s, actions[0]), actions[1..]))
  }

  /** Every unexpired leader leads the row that is there. */
  predicate LeadsTheRow(s: Saga) {
    forall c :: c in s.callers && Leads(s, c) ==> s.op.Some? && s.op.value.id == s.callers[c].op
  }

  lemma StepKeepsLeading(s: Saga, a: Action)
    requires SagaOk(s) && LeaseOk(s) && LeadsTheRow(s)
    ensures LeadsTheRow(Step(s, a)) <==> !Robs(s, a)
  {
    hide Step, SagaOk, InPhase, MayRecreate;
    StepKeeps(s, a);
    StepKeepsLease(s, a);
    if a.Start? {
      StartKeepsLeading(s, a);
    } else {
      StepTouches(s, a);
      StepClaims(s, a);
      if s.op.Some? && Step(s, a).op.None? {
        DeletedByItsLeader(s, a);
      }
      if Robs(s, a) {
        RobberyDeletes(s, a);
      }
    }
  }

  lemma RobberyDeletes(s: Saga, a: Action)
    requires Robs(s, a)
    ensures Step(s, a) == s.(op := None, callers := s.callers[a.caller := Finished]) && !LeadsTheRow(Step(s, a))
  {
    var d :| d in s.callers && d != a.caller && Leads(s, d) && s.callers[d].op == s.op.value.id;
    assert Leads(s.(op := None, callers := s.callers[a.caller := Finished]), d);
  }

  lemma StartKeepsLeading(s: Saga, a: Action)
    requires SagaOk(s) && LeadsTheRow(s) && a.Start?
    ensures LeadsTheRow(Step(s, a))
  {
    hide CountOk, RowOk, TxnOk, AttemptOk, CallerOk, CallOk;
  }

  /** A row is deleted when its lease is over, or by a leader. */
  lemma DeletedByItsLeader(s: Saga, a: Action)
    requires SagaOk(s) && s.op.Some? && Step(s, a).op.None?
    ensures s.op.value.status == Claimed
    ensures || (a.Check? && LeaseOver(s.op.value, s.clock) && Step(s, a).callers == s.callers)
            || (a.Stop? && InPhase(s, a) && s.callers[a.caller].Leader? && s.callers[a.caller].op == s.op.value.id
                && Step(s, a).callers == s.callers[a.caller := Finished])
  {
    StepKeeps(s, a);
    hide SagaOk, DoCompleteResult, DoCompleteLinked, DoLinkLocal, DoCommit;
  }

  lemma {:induction false} RunKeepsLeading(s: Saga, actions: seq<Action>)
    requires SagaOk(s) && LeaseOk(s) && LeadsTheRow(s) && NoRobbery(s, actions)
    ensures LeadsTheRow(Run(s, actions))
    decreases |actions|
  {
    hide SagaOk, Step, LeaseOk, LeadsTheRow, Robs;
    if actions != [] {
      StepKeeps(s, actions[0]);
      StepKeepsLease(s, actions[0]);
      StepKeepsLeading(s, actions[0]);
      RunKeepsLeading(Step(s, actions[0]), actions[1..]);
    }
  }

  /** As long as no leader deletes another's row, the identity has one unexpired leader at most. */
  lemma OneLeaderPerIdentity(clock: int, actions: seq<Action>, c: int, d: int)
    requires NoRobbery(Fresh(clock), actions)
    requires Leads(Run(Fresh(clock), actions), c) && Leads(Run(Fresh(clock), actions), d)
    ensures c == d
  {
    hide Run, NoRobbery;
    FreshIsOk(clock);
    RunKeepsLease(Fresh(clock), actions);
    RunKeepsLeading(Fresh(clock), actions);
  }

  /** And once one does, the very next caller becomes a second leader. */
  lemma RobberyAdmitsASecond(s: Saga, a: Action, caller: int, hash: string, key: ProviderKey)
    requires Robs(s, a) && caller !in s.callers
    ensures var s' := Step(Step(s, a), Start(caller, hash, key));
            exists d :: d != caller && Leads(s', d) && Leads(s', caller)
  {
    RobberyDeletes(s, a);
    var robbed := s.(op := None, callers := s.callers[a.caller := Finished]);
    var s' := Step(robbed, Start(caller, hash, key));
    var d :| d in s.callers && d != a.caller && Leads(s, d) && s.callers[d].op == s.op.value.id;
    assert Leads(s', d) && Leads(s', caller);
  }

  /** Leaders that give up only within their lease rob nobody. */
  predicate TimelyStops(s: Saga, actions: seq<Action>)
    decreases |actions|
  {
    actions == [] ||
    (&& (actions[0].Stop? && InPhase(s, actions[0]) && s.callers[actions[0].caller].Leader? ==> Leads(s, actions[0].caller))
     && TimelyStops(Step(s, actions[0]), actions[1..]))
  }

  lemma {:induction false} TimelyStopsRobNobody(s: Saga, actions: seq<Action>)
    requires SagaOk(s) && LeaseOk(s) && TimelyStops(s, actions)
    ensures NoRobbery(s, actions)
    decreases |actions|
  {
    hide SagaOk, Step, InPhase;
    if actions != [] {
      StepKeeps(s, actions[0]);
      StepKeepsLease(s, actions[0]);
      TimelyStopsRobNobody(Step(s, actions[0]), actions[1..]);
    }
  }

  /** Otherwise it can have two: a superseded leader that gives up late deletes its successor's claim. */
  lemma LateStopsAdmitASecondLeader(clock: int)
    ensures exists actions, c, d :: c != d && Leads(Run(Fresh(clock), actions), c) && Leads(Run(Fresh(clock), actions), d)
  {
    hide Run;
    var actions := [Start(1, "hash", 1), Tick(CLAIM_LEASE), Start(2, "hash", 2), Stop(1), Start(3, "hash", 3)];
    var s1 := Step(Fresh(clock), actions[0]);
    var s2 := Step(s1, actions[1]);
    var s3 := Step(s2, actions[2]);
    var s4 := Step(s3, actions[3]);
    var s5 := Step(s4, actions[4]);
    assert s3.callers[2].Leader? && s3.callers[1].Leader? && s3.op.Some?;
    assert s4.op == None;
    RunFive(Fresh(clock), actions);
    assert Leads(s5, 2) && Leads(s5, 3);
  }

  lemma RunFive(s: Saga, a: seq<Action>)
    requires |a| == 5
    ensures Run(s, a) == Step(Step(Step(Step(Step(s, a[0]), a[1]), a[2]), a[3]), a[4])
  {
    hide Step;
    assert a[1..][1..] == a[2..] && a[2..][1..] == a[3..] && a[3..][1..] == a[4..] && a[4..][1..] == [];
    var s3 := Step(Step(Step(s, a[0]), a[1]), a[2]);
    assert Run(Step(Step(s, a[0]), a[1]), a[2..]) == Run(s3, a[3..]);
    assert Run(Step(s3, a[3]), a[4..]) == Step(Step(s3, a[3]), a[4]);
  }
}
