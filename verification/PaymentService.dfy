/** The payment services' own methods over the stored operation, each proved to be a step or a run of the saga. */
module PaymentService {
  import opened Common
  import opened PaymentStore
  import opened PaymentSaga
  import opened PaymentSafety
  import opened PaymentTheorems
  import opened PaymentEffects

  /** What the provider does with a request. */
  datatype Answer = Answered(result: ProviderResult) | Refused | Unreachable

  /** What others commit between an attempt's own transactions, and what the provider answers it. */
  datatype Turn = Turn(
    beforeClaim: seq<Action>, beforeLoad: seq<Action>, beforeCall: seq<Action>, beforeCheckpoint: seq<Action>,
    beforeVerify: seq<Action>, beforeComplete: seq<Action>, beforeSettle: seq<Action>, created: Answer, verified: Answer)

  predicate Foreign(actions: seq<Action>, token: Token) {
    forall a :: a in actions ==> TokenOf(a) != Some(token)
  }

  predicate ForeignTurn(turn: Turn, token: Token) {
    && Foreign(turn.beforeClaim, token) && Foreign(turn.beforeLoad, token) && Foreign(turn.beforeCall, token)
    && Foreign(turn.beforeCheckpoint, token) && Foreign(turn.beforeVerify, token) && Foreign(turn.beforeComplete, token)
    && Foreign(turn.beforeSettle, token)
  }

  function PhaseOf(s: Saga, token: Token): Option<Attempt> {
    if token in s.attempts then Some(s.attempts[token]) else None
  }

  /** Others do not move an attempt. */
  lemma {:induction false} ForeignLeavesPhase(s: Saga, actions: seq<Action>, token: Token)
    requires Foreign(actions, token)
    ensures PhaseOf(Run(s, actions), token) == PhaseOf(s, token)
    decreases |actions|
  {
    hide Step;
    if actions != [] {
      StepTouches(s, actions[0]);
      ForeignLeavesPhase(Step(s, actions[0]), actions[1..], token);
    }
  }

  /** What one attempt does in a run, in order. */
  function OwnActions(trace: seq<Action>, token: Token): seq<Action>
    decreases |trace|
  {
    if trace == [] then []
    else (if TokenOf(trace[0]) == Some(token) then [trace[0]] else []) + OwnActions(trace[1..], token)
  }

  /** The stages of an attempt. */
  function Stage(a: Action): nat {
    match a
    case Check(_) => 0
    case Claim(_) => 1
    case Load(_) => 2
    case Recreate(_, _) => 3
    case UseStored(_) => 3
    case Checkpoint(_) => 4
    case Settle(_) => 6
    case _ => 5
  }

  /** It goes through its stages in order, none of them twice: so it makes one create call at most. */
  predicate InStages(own: seq<Action>) {
    forall i, j :: 0 <= i < j < |own| ==> Stage(own[i]) < Stage(own[j])
  }

  predicate StagesWithin(own: seq<Action>, first: nat, last: nat) {
    InStages(own) && forall i :: 0 <= i < |own| ==> first <= Stage(own[i]) <= last
  }

  lemma StagesAppend(own: seq<Action>, a: Action, first: nat, last: nat)
    requires StagesWithin(own, first, last) && first <= last < Stage(a)
    ensures StagesWithin(own + [a], first, Stage(a))
  {
    hide Stage;
  }

  lemma StagesJoin(a: seq<Action>, b: seq<Action>, first: nat, middle: nat, last: nat)
    requires StagesWithin(a, first, middle) && StagesWithin(b, middle + 1, last) && first <= middle <= last
    ensures StagesWithin(a + b, first, last)
  {
    hide Stage;
  }

  lemma OneStage(a: Action)
    ensures StagesWithin([a], Stage(a), Stage(a))
  {
  }

  lemma {:induction false} OwnAppends(first: seq<Action>, second: seq<Action>, token: Token)
    ensures OwnActions(first + second, token) == OwnActions(first, token) + OwnActions(second, token)
    decreases |first|
  {
    if first == [] {
      assert first + second == second;
    } else {
      assert (first + second)[1..] == first[1..] + second;
      OwnAppends(first[1..], second, token);
    }
  }

  lemma {:induction false} OthersOwnNothing(actions: seq<Action>, token: Token)
    requires Foreign(actions, token)
    ensures OwnActions(actions, token) == []
    decreases |actions|
  {
    if actions != [] {
      assert actions[0] in actions;
      OthersOwnNothing(actions[1..], token);
    }
  }

  /** After others, one action of its own. */
  lemma OwnAfter(trace: seq<Action>, others: seq<Action>, a: Action, token: Token)
    requires Foreign(others, token) && TokenOf(a) == Some(token)
    ensures OwnActions(trace + others + [a], token) == OwnActions(trace, token) + [a]
  {
    OwnAppends(trace + others, [a], token);
    OwnAppends(trace, others, token);
    OthersOwnNothing(others, token);
    assert [a][1..] == [];
    assert OwnActions(trace, token) + [] == OwnActions(trace, token);
  }

  /** How an attempt that has read its row begins: with the link, what is stored, or what the provider answers to the create call. */
  predicate Begins(record: Op, token: Token, turn: Turn, a: Action) {
    if record.transaction.Some? then a == CompleteLinked(token)
    else if record.mode == LocalMode || record.result.Some? then a == UseStored(token)
    else if && record.mode == YookassaReplay && record.yookassa && record.owner.Some?
            && record.request == Some(GatewayRequest(true))
    then
      match turn.created
      case Answered(result) => a == PaymentSaga.Action.Recreate(token, result)
      case Refused => a == Fail(token, Permanent)
      case Unreachable => a == Fail(token, Transient)
    else a == Fail(token, Permanent)
  }

  /** How it ends once it holds a result: a local payment is linked, and a gateway is asked about its own payment. */
  predicate Finishes(record: Op, token: Token, turn: Turn, a: Action) {
    if record.mode == LocalMode then a == LinkLocal(token)
    else if record.yookassa && record.owner.Some? && record.request == Some(GatewayRequest(true)) then
      match turn.verified
      case Answered(now) => a == CompleteResult(token, now.url, now.status)
      case Refused => a == Fail(token, Permanent)
      case Unreachable => a == Fail(token, Transient)
    else a.CompleteResult? && a.token == token && a.url == None && a.status == NoStatus
  }

  /** What an attempt does with the row it read: it begins, checkpoints what is new, and finishes, as far as it comes. */
  predicate Course(own: seq<Action>, record: Op, token: Token, turn: Turn) {
    && 1 <= |own| <= 3 && Begins(record, token, turn, own[0])
    && (|own| == 3 ==> own[1] == Checkpoint(token))
    && (|own| >= 2 ==> own[|own| - 1] == Checkpoint(token) || Finishes(record, token, turn, own[|own| - 1]))
  }

  /** A gateway's answer to the verification of a stored result; the payment is still the stored one. */
  predicate Verifies(record: Op, status: ProviderStatus) {
    record.yookassa ==>
      status != NoStatus && status != Local && record.owner.Some? && record.request == Some(GatewayRequest(true))
  }

  class PaymentOperations {
    var row: Option<Op>
    var nextId: int
    var txns: map<int, Txn>
    var nextTxn: int
    var clock: int
    /** How far each request and each attempt has come, and what was asked of the provider. */
    var callers: map<int, Caller>
    var attempts: map<Token, Attempt>
    var calls: seq<Call>
    var crossings: seq<int>

    function State(): Saga
      reads this
    {
      Saga(row, nextId, txns, nextTxn, clock, callers, attempts, calls, crossings)
    }

    ghost predicate Valid()
      reads this
    {
      SagaOk(State())
    }

    constructor (start: int)
      ensures Valid() && State() == Fresh(start)
    {
      row, nextId, txns, nextTxn, clock := None, 1, map[], 1, start;
      callers, attempts, calls, crossings := map[], map[], [], [];
      new;
      FreshIsOk(start);
    }

    // -------------------------------------------------------------- PaymentIdempotencyService

    /** `_recover_stale`: renew an expired claim, or expire a stale run, and read the row again. */
    method RecoverStale(record: Op) returns (current: Op, became: bool)
      requires row == Some(record)
      modifies this`row
      ensures record.status == Claimed ==> became == Lapsed(record.leaseUntil, clock)
      ensures became ==>
                && record.status == Claimed && current == record
                && row == Some(record.(leaseUntil := Some(clock + 5 * 60)))
      ensures !became ==> row == Some(current)
      ensures !became && record.status != Processing ==> current == record
      ensures record.status == Processing ==>
                current == if Lapsed(record.leaseUntil, clock) then record.(status := Unknown, leaseUntil := None) else record
    {
      became := false;
      if record.status == Claimed {
        var renewed := ReclaimClaimed(record, clock);
        if renewed.Some? {
          row, became := renewed, true;
        }
      } else if record.status == Processing {
        var expired := ExpireProcessing(record, clock);
        if expired.Some? {
          row := expired;
        }
      } else {
        return record, false;
      }
      if became {
        return record, true;
      }
      current := row.value;
    }

    method Start(caller: int, hash: string, key: ProviderKey) returns (result: StartResult)
      requires Valid() && caller !in callers
      modifies this
      ensures Valid() && State() == Step(old(State()), PaymentSaga.Action.Start(caller, hash, key))
      ensures result == StartRow(old(State()), hash, key).1 && Answers(old(State()), hash, key, result)
    {
      hide SagaOk;
      StartAnswers(State(), hash, key);
      StepKeeps(State(), PaymentSaga.Action.Start(caller, hash, key));
      var created, became := row.None?, false;
      if created {
        row, nextId := Some(NewOp(nextId, hash, key, clock)), nextId + 1;
      }
      var record := row.value;
      if !created && record.hash == hash {
        record, became := RecoverStale(record);
      }
      var leads := record.hash == hash && (created || became);
      callers := callers[caller := if leads then Leader(record.id, record.key, clock + CLAIM_LEASE) else Finished];
      if record.hash != hash {
        return Conflict;
      }
      if leads {
        return Leads(record.id, record.key);
      }
      match record.status
      case Succeeded => result := if record.response.Some? then Replay(record.response.value) else OutcomeUnknown;
      case Unknown => result := OutcomeUnknown;
      case ManualRequired => result := OutcomeUnknown;
      case _ => result := InProgress;
    }

    method MarkProcessing(caller: int, plan: Plan) returns (ok: bool)
      requires Valid() && caller in callers && callers[caller].Leader? && PlanOk(plan)
      modifies this
      ensures Valid() && State() == Step(old(State()), Cross(caller, plan))
      ensures ok == (old(row).Some? && old(row).value.id == old(callers[caller].op) && old(row).value.status == Claimed)
      ensures !ok ==> row == old(row)
    {
      hide SagaOk;
      StepKeeps(State(), Cross(caller, plan));
      var me := callers[caller];
      ok := row.Some? && row.value.id == me.op && PaymentStore.MarkProcessing(row.value, plan, clock).Some?;
      if ok {
        row := PaymentStore.MarkProcessing(row.value, plan, clock);
        crossings := crossings + [me.op];
        callers := callers[caller := Crossed(me.op, me.key, plan)];
      } else {
        callers := callers[caller := Finished];
      }
    }

    method CheckpointResult(caller: int) returns (ok: bool)
      requires Valid() && caller in callers && callers[caller].Charged?
      modifies this
      ensures Valid() && State() == Step(old(State()), Record(caller))
      ensures ok <==> callers[caller].Recorded?
      ensures !ok ==> State() == old(State())
    {
      hide SagaOk;
      StepKeeps(State(), Record(caller));
      var me := callers[caller];
      ok := row.Some? && row.value.id == me.op && CheckpointProviderResult(row.value, me.result).Some?;
      if ok {
        row := CheckpointProviderResult(row.value, me.result);
        callers := callers[caller := Recorded(me.op, me.key, me.plan, me.result)];
      }
    }

    /** `mark_unknown` after the boundary, `abandon` before it. */
    method GiveUp(caller: int)
      requires Valid() && caller in callers
      modifies this
      ensures Valid() && State() == Step(old(State()), Stop(caller))
      ensures row != old(row) && row.Some? ==> row.value.status == Unknown
      ensures row != old(row) && row.None? ==> old(row).value.status == Claimed && old(callers[caller]).Leader?
    {
      hide SagaOk;
      StepKeeps(State(), Stop(caller));
      var me := callers[caller];
      callers := callers[caller := Finished];
      if !me.Finished? && row.Some? && row.value.id == me.op {
        if me.Leader? {
          if row.value.status == Claimed {
            row := None;
          }
        } else {
          var unknown := MarkUnknown(row.value);
          if unknown.Some? {
            row := unknown;
          }
        }
      }
    }

    /** The handler's last block: create the transaction, link it, and complete what was paid for. */
    method CommitPayment(caller: int) returns (ok: bool)
      requires Valid() && caller in callers && callers[caller].Recorded?
      modifies this
      ensures Valid() && State() == Step(old(State()), Commit(caller))
      ensures !ok ==> State() == old(State())
      ensures ok ==>
                && old(txns) == map[] && txns.Keys == {old(nextTxn)} && row.Some?
                && row.value.transaction == Some(old(nextTxn))
    {
      hide SagaOk, RowOk, CountOk, TxnOk, Follows, PaymentTaken;
      StepKeeps(State(), Commit(caller));
      CallerParts(State(), caller);
      var me := callers[caller];
      ok := false;
      if row.None? || row.value.id != me.op || PaymentTaken(State(), me.result.payment) {
        return;
      }
      if !me.plan.terms.free && (me.result.status == Paid || me.result.status == Canceled) {
        return;
      }
      var txn := NewTxn(me.result.payment, me.plan.terms, TxnPending, None);
      var linked := LinkTransaction(row.value, nextTxn);
      if linked.None? {
        return;
      }
      var created := txns[nextTxn := txn];
      var done := if me.plan.terms.free then linked else Complete(linked.value, created, BuildResponse(txn, me.result.url));
      if done.None? {
        return;
      }
      TakenIfLinked(State(), me.result.payment);
      row, txns, nextTxn := done, created, nextTxn + 1;
      callers := callers[caller := Finished];
      ok := true;
    }

    // -------------------------------------------------------------- PaymentReconciliationService

    /** The claiming block up to its claim: retire what cannot be claimed. */
    method CheckRow(token: Token) returns (claimable: bool)
      requires Valid() && token !in attempts
      modifies this
      ensures Valid() && State() == Step(old(State()), Check(token)) && token in attempts
      ensures claimable <==> attempts[token].Checked?
      ensures !claimable ==> attempts[token] == Over
      ensures claimable <==> old(row).Some? && Adrift(old(row).value, clock) && !OutOfTries(old(row).value, clock)
      ensures if old(row).None? then row == None else CheckedRow(old(row).value, row, clock)
    {
      hide SagaOk, Step, CheckedRow, Adrift, OutOfTries;
      CheckIff(State(), token);
      ClaimSteps(State(), token);
      StepKeeps(State(), Check(token));
      var next := Over;
      if row.Some? {
        if row.value.status == Claimed && LeaseOver(row.value, clock) {
          row := None;
        } else {
          var expired := ExpireProcessing(row.value, clock);
          if expired.Some? {
            row := expired;
          }
          if row.value.status == Unknown {
            row := Some(Exhausted(row.value, clock));
            if row.value.status == Unknown {
              next := Checked(row.value.id, clock);
            }
          }
        }
      }
      claimable, attempts := next != Over, attempts[token := next];
    }

    method ClaimRow(token: Token) returns (claimed: bool)
      requires Valid() && token in attempts && attempts[token].Checked?
      modifies this
      ensures Valid() && State() == Step(old(State()), Claim(token)) && token in attempts
      ensures claimed <==> attempts[token].Holder?
      ensures !claimed ==> attempts[token] == Over
      ensures claimed <==> old(row).Some? && old(row).value.id == old(attempts[token].op) && ClaimableNow(old(row).value, clock)
      ensures claimed ==>
                row == Some(old(row).value.(token := Some(token), tokenUntil := Some(clock + 5 * 60), attempts := old(row).value.attempts + 1))
      ensures !claimed ==>
                if && old(row).Some? && old(row).value.id == old(attempts[token].op) && old(row).value.status == Unknown
                   && OutOfTries(old(row).value, clock)
                then row == Some(old(row).value.(status := ManualRequired, nextAttempt := None)) else row == old(row)
    {
      hide SagaOk, Step, ClaimableNow, OutOfTries;
      ClaimIff(State(), token);
      ClaimSteps(State(), token);
      StepKeeps(State(), Claim(token));
      var id := attempts[token].op;
      var next := Over;
      if row.Some? && row.value.id == id {
        var owned := ClaimReconciliation(row.value, token, clock);
        if owned.Some? {
          row, next := owned, Holder(id);
        } else {
          row := Some(Exhausted(row.value, clock));
        }
      }
      claimed, attempts := next != Over, attempts[token := next];
    }

    method LoadRow(token: Token) returns (record: Option<Op>)
      requires Valid() && token in attempts && attempts[token].Holder?
      modifies this
      ensures Valid() && State() == Step(old(State()), Load(token)) && token in attempts
      ensures row == old(row) && record == row && record.Some? && attempts[token] == Loaded(record.value)
    {
      hide SagaOk;
      StepKeeps(State(), Load(token));
      HasRow(State(), token);
      Parts(State(), token);
      record := row;
      attempts := attempts[token := Loaded(row.value)];
    }

    /** The block raised: its transaction is rolled back, and the attempt owes the failure. */
    method RollBack(token: Token, record: Op, failure: Failure)
      modifies this`attempts
      ensures State() == Failed(old(State()), token, record, failure)
    {
      attempts := attempts[token := Failing(record, failure)];
    }

    /** The block's last statement decides: both writes are committed, or the fence is lost and both are rolled back. */
    method CommitBlock(token: Token, record: Op, written: Option<Op>, transactions: map<int, Txn>) returns (failure: Option<Failure>)
      modifies this
      ensures State() == Committed(old(State()), token, record, written, transactions)
      ensures failure == if written.Some? then None else Some(Transient)
    {
      if written.None? {
        RollBack(token, record, Transient);
        return Some(Transient);
      }
      row, txns := written, transactions;
      nextTxn := if nextTxn in txns then nextTxn + 1 else nextTxn;
      attempts := attempts[token := Over];
      failure := None;
    }

    /** `_complete_linked`. */
    method CompleteLinkedRow(token: Token, record: Op) returns (failure: Option<Failure>)
      requires Valid() && token in attempts && attempts[token] == Loaded(record) && RouteOf(record) == LinkedRoute
      modifies this
      ensures Valid() && State() == Step(old(State()), CompleteLinked(token)) && token in attempts
      ensures attempts[token] == if failure.Some? then Failing(record, failure.value) else Over
      ensures failure.None? ==> row.Some? && row.value.status == Succeeded
    {
      hide SagaOk, RowOk, CountOk, AttemptOk, Follows, Step;
      StepKeeps(State(), CompleteLinked(token));
      BlockSteps(State(), token, None, NoStatus);
      if row.None? || row.value.id != record.id || row.value.token != Some(token)
         || row.value.transaction.None? || row.value.transaction.value !in txns
      {
        RollBack(token, record, Transient);
        return Some(Transient);
      }
      var op := row.value;
      var id := op.transaction.value;
      var txn := txns[id];
      var paid := op.result.Some? && op.result.value.status == Paid;
      if paid && SuccessEvent(txn) == Conflicting {
        RollBack(token, record, Permanent);
        return Some(Permanent);
      }
      var noted := if paid then Queued(txn, SuccessEvent(txn)) else txn;
      var proof := if NeedsProof(op, txn) then FulfillmentProof(txn) else Proven;
      match proof
      case InReview =>
        RollBack(token, record, Permanent);
        failure := Some(Permanent);
      case Await(enqueue) =>
        txns := txns[id := noted.(queued := noted.queued || enqueue)];
        RollBack(token, record, Transient);
        failure := Some(Transient);
      case Proven =>
        var url := if op.result.Some? then op.result.value.url else None;
        var completed := CompleteReconciliation(op, token, id, BuildResponse(txn, url), op.result, clock);
        failure := CommitBlock(token, record, completed, txns[id := noted]);
    }

    /** `_create_local_transaction_for_fulfillment`. */
    method CreateLocalTransaction(token: Token, record: Op, result: ProviderResult) returns (failure: Option<Failure>)
      requires Valid() && token in attempts && attempts[token] == Ready(record, result) && record.mode == LocalMode
      modifies this
      ensures Valid() && State() == Step(old(State()), LinkLocal(token)) && token in attempts
      ensures attempts[token] == if failure.Some? then Failing(record, failure.value) else Over
      ensures failure.Some? ==> row == old(row) && txns == old(txns)
      ensures failure.None? ==> row.Some? && row.value.transaction.Some? && row.value.transaction.value in txns
    {
      hide SagaOk, RowOk, CountOk, TxnOk, AttemptOk, PaymentTaken, Follows, Step;
      StepKeeps(State(), LinkLocal(token));
      BlockSteps(State(), token, None, NoStatus);
      if row.None? || row.value.id != record.id || row.value.token != Some(token) {
        RollBack(token, record, Transient);
        return Some(Transient);
      }
      var ensured := EnsureTransaction(State(), row.value, result.payment, TxnPending, None);
      if ensured.NoTransaction? {
        RollBack(token, record, Permanent);
        return Some(Permanent);
      }
      var linked := LinkPendingFulfillment(row.value, token, ensured.id, result, clock);
      failure := CommitBlock(token, record, linked, ensured.txns[ensured.id := ensured.txns[ensured.id].(queued := true)]);
    }

    /** `_verify_checkpointed_result` with the gateway's answer, then `_complete_with_result`. */
    method CompleteWithResult(token: Token, record: Op, stored: ProviderResult, url: Option<string>, status: ProviderStatus)
      returns (failure: Option<Failure>)
      requires Valid() && token in attempts && attempts[token] == Ready(record, stored) && record.mode != LocalMode
      modifies this
      ensures Valid() && State() == Step(old(State()), CompleteResult(token, url, status)) && token in attempts
      ensures attempts[token] == if failure.Some? then Failing(record, failure.value) else Over
      ensures failure.Some? ==> row == old(row) && txns == old(txns)
    {
      hide SagaOk, RowOk, CountOk, TxnOk, AttemptOk, PaymentTaken, EnsureRecovered, NeedsProof, SuccessEvent, Follows, Step,
           CompleteReconciliation, LinkPendingFulfillment, Verified, BuildResponse, Queued;
      StepKeeps(State(), CompleteResult(token, url, status));
      BlockSteps(State(), token, url, status);
      if !Verifies(record, status) {
        RollBack(token, record, Permanent);
        return Some(Permanent);
      }
      if row.None? || row.value.id != record.id || row.value.token != Some(token) {
        RollBack(token, record, Transient);
        return Some(Transient);
      }
      var op := row.value;
      var result := Verified(record, stored, url, status);
      var ensured := EnsureRecovered(State(), op, result);
      if ensured.NoTransaction? {
        RollBack(token, record, Permanent);
        return Some(Permanent);
      }
      var txn := ensured.txns[ensured.id];
      var proof := NeedsProof(op, txn);
      if (proof && result.status != Paid) || (result.status == Paid && SuccessEvent(txn) == Conflicting) {
        RollBack(token, record, Permanent);
        return Some(Permanent);
      }
      var written :=
        if result.status == Paid && proof then LinkPendingFulfillment(op, token, ensured.id, result, clock)
        else CompleteReconciliation(op, token, ensured.id, BuildResponse(txn, result.url), Some(result), clock);
      var queued := if result.status == Paid then ensured.txns[ensured.id := Queued(txn, SuccessEvent(txn))] else ensured.txns;
      failure := CommitBlock(token, record, written, queued);
    }

    /** `_manual` or `_release`, under the attempt's fence. */
    method SettleFailure(token: Token, record: Op, failure: Failure)
      requires Valid() && token in attempts && attempts[token] == Failing(record, failure)
      modifies this
      ensures Valid() && State() == Step(old(State()), Settle(token)) && token in attempts && attempts[token] == Over
    {
      hide SagaOk;
      StepKeeps(State(), Settle(token));
      attempts := attempts[token := Over];
      if row.Some? && row.value.id == record.id {
        var written :=
          if failure == Permanent || record.attempts >= MAX_RECONCILIATION_ATTEMPTS
          then MarkManualRequired(row.value, token, clock)
          else ReleaseReconciliation(row.value, token, RetryDelay(record.attempts), clock);
        if written.Some? {
          row := written;
        }
      }
    }

    /** Others commit, and time passes. */
    method Interfere(actions: seq<Action>, token: Token)
      requires Valid() && Foreign(actions, token)
      modifies this
      ensures Valid() && State() == Run(old(State()), actions)
      ensures PhaseOf(State(), token) == old(PhaseOf(State(), token))
    {
      hide SagaOk, Run, Foreign;
      RunKeeps(State(), actions);
      ForeignLeavesPhase(State(), actions, token);
      var s := Run(State(), actions);
      row, nextId, txns, nextTxn, clock := s.op, s.nextId, s.txns, s.nextTxn, s.clock;
      callers, attempts, calls, crossings := s.callers, s.attempts, s.calls, s.crossings;
    }

    /** An attempt raises: whatever it was doing, it now owes a failure. */
    method Raise(token: Token, record: Op, failure: Failure)
      requires Valid() && token in attempts && PhaseRecord(attempts[token]) == Some(record)
      modifies this
      ensures Valid() && State() == Step(old(State()), Fail(token, failure))
      ensures token in attempts && attempts[token] == Failing(record, failure)
    {
      hide SagaOk;
      StepKeeps(State(), Fail(token, failure));
      attempts := attempts[token := Failing(record, failure)];
    }

    /** The stored result, or the one the stored local request stands for. */
    method TakeStored(token: Token, record: Op)
      requires Valid() && token in attempts && attempts[token] == Loaded(record)
      requires RouteOf(record) == LocalRoute || RouteOf(record) == StoredRoute
      modifies this
      ensures Valid() && State() == Step(old(State()), UseStored(token)) && token in attempts
      ensures match attempts[token]
              case Ready(r, result) => r == record && record.result == Some(result)
              case Obtained(r, result) => r == record && record.result.None? && record.mode == LocalMode
              case Failing(r, failure) => r == record && record.result.None?
              case _ => false
    {
      hide SagaOk;
      StepKeeps(State(), UseStored(token));
      var next := Failing(record, Permanent);
      if record.result.Some? {
        next := Ready(record, record.result.value);
      } else if record.request.Some? && record.request.value.LocalRequest? {
        next := Obtained(record, ProviderResult(record.request.value.payment, None, Local));
      }
      attempts := attempts[token := next];
    }

    /** `create_payment_from_request` under the stored key, unless the stored request cannot be replayed safely. */
    method Recreate(token: Token, record: Op, result: ProviderResult) returns (called: bool)
      requires Valid() && token in attempts && attempts[token] == Loaded(record) && RouteOf(record) == ProviderRoute
      modifies this
      ensures Valid() && State() == Step(old(State()), PaymentSaga.Action.Recreate(token, result)) && token in attempts
      ensures called <==> calls == old(calls) + [Call(record.id, record.key, ByAttempt(token, record))]
      ensures attempts[token] == if called then Obtained(record, result) else Failing(record, Permanent)
    {
      hide SagaOk;
      StepKeeps(State(), PaymentSaga.Action.Recreate(token, result));
      called := MayRecreate(record);
      if called {
        calls := calls + [Call(record.id, record.key, ByAttempt(token, record))];
      }
      attempts := attempts[token := if called then Obtained(record, result) else Failing(record, Permanent)];
    }

    method CheckpointObtained(token: Token, record: Op, result: ProviderResult) returns (ok: bool)
      requires Valid() && token in attempts && attempts[token] == Obtained(record, result)
      modifies this
      ensures Valid() && State() == Step(old(State()), Checkpoint(token)) && token in attempts
      ensures attempts[token] == if ok then Ready(record, result) else Failing(record, Transient)
      ensures !ok ==> row == old(row)
    {
      hide SagaOk;
      StepKeeps(State(), Checkpoint(token));
      var written := if row.Some? && row.value.id == record.id
                     then CheckpointReconciliation(row.value, token, result, clock) else None;
      ok := written.Some?;
      if ok {
        row := written;
      }
      attempts := attempts[token := if ok then Ready(record, result) else Failing(record, Transient)];
    }

    /** The block of `_claim_for_reconciliation` that checks and claims, others committing between its statements. */
    method CheckAndClaim(token: Token, turn: Turn) returns (claimed: bool, trace: seq<Action>)
      requires Valid() && token !in attempts && ForeignTurn(turn, token)
      modifies this
      ensures Valid() && State() == Run(old(State()), trace) && token in attempts
      ensures if claimed then attempts[token].Holder? else attempts[token] == Over
      ensures trace != [] && trace[0] == Check(token) && StagesWithin(OwnActions(trace, token), 0, 1)
      ensures var own := OwnActions(trace, token);
              own == [Check(token), Claim(token)] || (!claimed && own == [Check(token)])
    {
      hide SagaOk, Step, Run, Foreign, OwnActions, StagesWithin;
      ghost var start := State();
      claimed, trace := false, [Check(token)];
      FirstAction(start, Check(token), token);
      Widen(OwnActions(trace, token), 0, 0, 0, 1);
      var claimable := CheckRow(token);
      if claimable {
        Interfere(turn.beforeClaim, token);
        OwnThen(start, trace, turn.beforeClaim, Claim(token), token, 0, 0);
        trace := trace + turn.beforeClaim + [Claim(token)];
        claimed := ClaimRow(token);
      }
    }

    /** `_claim_for_reconciliation`: a claimed row is read again. */
    method ClaimForReconciliation(token: Token, turn: Turn) returns (record: Option<Op>, trace: seq<Action>)
      requires Valid() && token !in attempts && ForeignTurn(turn, token)
      modifies this
      ensures Valid() && State() == Run(old(State()), trace) && token in attempts
      ensures attempts[token] == if record.Some? then Loaded(record.value) else Over
      ensures trace != [] && trace[0] == Check(token) && StagesWithin(OwnActions(trace, token), 0, 2)
      ensures var own := OwnActions(trace, token);
              if record.Some? then own == [Check(token), Claim(token), Load(token)]
              else own == [Check(token)] || own == [Check(token), Claim(token)]
    {
      hide SagaOk, Step, Run, Foreign, OwnActions, StagesWithin;
      ghost var start := State();
      record := None;
      var claimed;
      claimed, trace := CheckAndClaim(token, turn);
      if claimed {
        Interfere(turn.beforeLoad, token);
        OwnThen(start, trace, turn.beforeLoad, Load(token), token, 0, 1);
        trace := trace + turn.beforeLoad + [Load(token)];
        record := LoadRow(token);
      } else {
        Widen(OwnActions(trace, token), 0, 1, 0, 2);
      }
    }

    /** The part of `_reconcile_claimed` that obtains a checkpointed result. */
    method ObtainResult(token: Token, record: Op, turn: Turn) returns (result: Option<ProviderResult>, trace: seq<Action>)
      requires Valid() && token in attempts && attempts[token] == Loaded(record) && RouteOf(record) != LinkedRoute
      requires ForeignTurn(turn, token)
      modifies this
      ensures Valid() && State() == Run(old(State()), trace) && token in attempts
      ensures if result.Some? then attempts[token] == Ready(record, result.value)
              else attempts[token].Failing? && attempts[token].record == record
      ensures record.result.Some? ==> result == record.result && trace == turn.beforeCall + [UseStored(token)]
      ensures StagesWithin(OwnActions(trace, token), 3, if result.Some? then 4 else 5)
      ensures var own := OwnActions(trace, token);
              && 1 <= |own| <= 2 && Begins(record, token, turn, own[0]) && (|own| == 2 ==> own[1] == Checkpoint(token))
    {
      hide SagaOk, Step, Run, Foreign, OwnActions, StagesWithin, MayRecreate, Begins;
      ghost var start := State();
      result := None;
      Interfere(turn.beforeCall, token);
      var first := FirstOf(record, token, turn);
      FirstBegins(record, token, turn);
      OwnFirst(start, turn.beforeCall, first, token);
      trace := turn.beforeCall + [first];
      Widen(OwnActions(trace, token), Stage(first), Stage(first), 3, 5);
      Widen(OwnActions(trace, token), Stage(first), Stage(first), 3, 4);
      if first.Fail? {
        Raise(token, record, first.failure);
        return;
      }
      if first.UseStored? {
        TakeStored(token, record);
      } else {
        var called := Recreate(token, record, first.result);
      }
      if attempts[token].Obtained? {
        var obtained := attempts[token].result;
        Interfere(turn.beforeCheckpoint, token);
        OwnThen(start, trace, turn.beforeCheckpoint, Checkpoint(token), token, 3, 3);
        trace := trace + turn.beforeCheckpoint + [Checkpoint(token)];
        var ok := CheckpointObtained(token, record, obtained);
      }
      if attempts[token].Ready? {
        result := Some(attempts[token].result);
      } else {
        Widen(OwnActions(trace, token), 3, 4, 3, 5);
      }
    }

    /** The completing block of an attempt that holds a checkpointed result. */
    method CompleteReady(token: Token, record: Op, result: ProviderResult, turn: Turn)
      returns (failure: Option<Failure>, trace: seq<Action>)
      requires Valid() && token in attempts && attempts[token] == Ready(record, result) && ForeignTurn(turn, token)
      modifies this
      ensures Valid() && State() == Run(old(State()), trace) && token in attempts
      ensures attempts[token] == if failure.Some? then Failing(record, failure.value) else Over
      ensures StagesWithin(OwnActions(trace, token), 5, 5)
      ensures |OwnActions(trace, token)| == 1 && Finishes(record, token, turn, OwnActions(trace, token)[0])
    {
      hide SagaOk, Step, Run, Foreign, OwnActions, StagesWithin;
      ghost var start := State();
      Interfere(turn.beforeVerify, token);
      var asks := record.yookassa && record.owner.Some? && record.request == Some(GatewayRequest(true));
      var kind := if turn.verified.Refused? then Permanent else Transient;
      var answer := if asks && turn.verified.Answered? then turn.verified.result else ProviderResult(result.payment, None, NoStatus);
      var last := if record.mode == LocalMode then LinkLocal(token)
                  else if asks && !turn.verified.Answered? then Fail(token, kind)
                  else CompleteResult(token, answer.url, answer.status);
      var others := turn.beforeVerify;
      if last.CompleteResult? {
        Interfere(turn.beforeComplete, token);
        RunAppends(start, turn.beforeVerify, turn.beforeComplete);
        ForeignJoins(turn.beforeVerify, turn.beforeComplete, token);
        others := others + turn.beforeComplete;
      }
      OwnFirst(start, others, last, token);
      trace := others + [last];
      if last.LinkLocal? {
        failure := CreateLocalTransaction(token, record, result);
      } else if last.Fail? {
        Raise(token, record, kind);
        failure := Some(kind);
      } else {
        failure := CompleteWithResult(token, record, result, answer.url, answer.status);
      }
    }

    /** `_reconcile_claimed`. */
    method ReconcileClaimed(token: Token, record: Op, turn: Turn) returns (failure: Option<Failure>, trace: seq<Action>)
      requires Valid() && token in attempts && attempts[token] == Loaded(record) && ForeignTurn(turn, token)
      modifies this
      ensures Valid() && State() == Run(old(State()), trace) && token in attempts
      ensures attempts[token] == if failure.Some? then Failing(record, failure.value) else Over
      ensures StagesWithin(OwnActions(trace, token), 3, 5) && Course(OwnActions(trace, token), record, token, turn)
    {
      hide SagaOk, Step, Run, Foreign, OwnActions, StagesWithin, ForeignTurn, Finishes;
      ghost var start := State();
      if RouteOf(record) == LinkedRoute {
        FirstAction(start, CompleteLinked(token), token);
        trace := [CompleteLinked(token)];
        Widen(OwnActions(trace, token), 5, 5, 3, 5);
        failure := CompleteLinkedRow(token, record);
        return;
      }
      var result, obtaining := ObtainResult(token, record, turn);
      if result.None? {
        return Some(attempts[token].failure), obtaining;
      }
      var completing;
      failure, completing := CompleteReady(token, record, result.value, turn);
      RunAppends(start, obtaining, completing);
      OwnAppends(obtaining, completing, token);
      StagesJoin(OwnActions(obtaining, token), OwnActions(completing, token), 3, 4, 5);
      trace := obtaining + completing;
    }

    /**
     `reconcile`: claim, work, and settle a failure. Between any two of its own transactions others commit
     what they like. It is a run of the saga in which the attempt goes through its stages in order, none of
     them twice: it checks and claims, and for the row it read takes the course its answers lead to. It leaves
     the attempt over.
     */
    method Reconcile(token: Token, turn: Turn) returns (record: Option<Op>, trace: seq<Action>)
      requires Valid() && token !in attempts && ForeignTurn(turn, token)
      modifies this
      ensures Valid() && State() == Run(old(State()), trace) && token in attempts && attempts[token] == Over
      ensures InStages(OwnActions(trace, token)) && trace != [] && trace[0] == Check(token)
      ensures Attempted(OwnActions(trace, token), record, token, turn)
    {
      hide SagaOk, Step, Run, Foreign, OwnActions, InStages, StagesWithin, Course;
      ghost var start := State();
      record, trace := ClaimForReconciliation(token, turn);
      StagesAreStages(OwnActions(trace, token), 2);
      if record.None? {
        return;
      }
      var failure, work := ReconcileClaimed(token, record.value, turn);
      RunAppends(start, trace, work);
      OwnAppends(trace, work, token);
      StagesJoin(OwnActions(trace, token), OwnActions(work, token), 0, 2, 5);
      AttemptedJoins(OwnActions(work, token), record.value, token, turn);
      trace := trace + work;
      StagesAreStages(OwnActions(trace, token), 5);
      if failure.Some? {
        Interfere(turn.beforeSettle, token);
        OwnThen(start, trace, turn.beforeSettle, Settle(token), token, 0, 5);
        trace := trace + turn.beforeSettle + [Settle(token)];
        StagesAreStages(OwnActions(trace, token), 6);
        SettleFailure(token, record.value, failure.value);
      }
    }
  }

  /** A whole attempt: a check, perhaps a claim that is lost; or a claimed row, its course, and perhaps a failure to settle. */
  predicate Attempted(own: seq<Action>, record: Option<Op>, token: Token, turn: Turn) {
    match record
    case None => own == [Check(token)] || own == [Check(token), Claim(token)]
    case Some(row) =>
      && |own| > 3 && own[..3] == [Check(token), Claim(token), Load(token)]
      && (Course(own[3..], row, token, turn)
          || (own[|own| - 1] == Settle(token) && Course(own[3..|own| - 1], row, token, turn)))
  }

  lemma AttemptedJoins(work: seq<Action>, record: Op, token: Token, turn: Turn)
    requires Course(work, record, token, turn)
    ensures var own := [Check(token), Claim(token), Load(token)] + work;
            Attempted(own, Some(record), token, turn) && Attempted(own + [Settle(token)], Some(record), token, turn)
  {
    var own := [Check(token), Claim(token), Load(token)] + work;
    assert own[3..] == work && own[..3] == [Check(token), Claim(token), Load(token)];
    var settled := own + [Settle(token)];
    assert settled[3..|settled| - 1] == work && settled[..3] == own[..3];
  }

  /** How an attempt that has read its row goes on: what it was answered, or what it has stored, or a failure. */
  function FirstOf(record: Op, token: Token, turn: Turn): Action
    requires RouteOf(record) != LinkedRoute
  {
    if RouteOf(record) != ProviderRoute then UseStored(token)
    else if !MayRecreate(record) then Fail(token, Permanent)
    else
      match turn.created
      case Refused => Fail(token, Permanent)
      case Unreachable => Fail(token, Transient)
      case Answered(result) => PaymentSaga.Action.Recreate(token, result)
  }

  lemma FirstBegins(record: Op, token: Token, turn: Turn)
    requires RouteOf(record) != LinkedRoute
    ensures Begins(record, token, turn, FirstOf(record, token, turn))
  {
  }

  lemma Widen(own: seq<Action>, first: nat, last: nat, lower: nat, upper: nat)
    requires StagesWithin(own, first, last)
    ensures lower <= first && last <= upper ==> StagesWithin(own, lower, upper)
  {
  }

  lemma StagesAreStages(own: seq<Action>, last: nat)
    requires StagesWithin(own, 0, last)
    ensures InStages(own)
  {
  }

  /** One more action of its own, after others: in the run, in its own actions, and in its stages. */
  lemma OwnThen(s: Saga, trace: seq<Action>, others: seq<Action>, a: Action, token: Token, first: nat, last: nat)
    requires StagesWithin(OwnActions(trace, token), first, last) && Foreign(others, token) && TokenOf(a) == Some(token)
    requires first <= last < Stage(a)
    ensures Run(s, trace + others + [a]) == Step(Run(Run(s, trace), others), a)
    ensures OwnActions(trace + others + [a], token) == OwnActions(trace, token) + [a]
    ensures StagesWithin(OwnActions(trace + others + [a], token), first, Stage(a))
  {
    hide Run, Step, Stage, Foreign, OwnActions, StagesWithin, TokenOf;
    RunAppends(s, trace, others);
    RunExtends(s, trace + others, a);
    OwnAfter(trace, others, a, token);
    StagesAppend(OwnActions(trace, token), a, first, last);
  }

  /** The first one. */
  lemma OwnFirst(s: Saga, others: seq<Action>, a: Action, token: Token)
    requires Foreign(others, token) && TokenOf(a) == Some(token)
    ensures Run(s, others + [a]) == Step(Run(s, others), a)
    ensures OwnActions(others + [a], token) == [a]
    ensures StagesWithin(OwnActions(others + [a], token), Stage(a), Stage(a))
  {
    hide Run, Step, Stage, Foreign, TokenOf;
    RunExtends(s, others, a);
    OwnAfter([], others, a, token);
    assert [] + others == others && [] + [a] == [a];
    OneStage(a);
  }

  lemma ForeignJoins(first: seq<Action>, second: seq<Action>, token: Token)
    requires Foreign(first, token) && Foreign(second, token)
    ensures Foreign(first + second, token)
  {
  }

  /** The record of an attempt that is past reading its row. */
  function PhaseRecord(a: Attempt): Option<Op> {
    match a
    case Loaded(record) => Some(record)
    case Obtained(record, _) => Some(record)
    case Ready(record, _) => Some(record)
    case _ => None
  }

  lemma FirstAction(s: Saga, a: Action, token: Token)
    requires TokenOf(a) == Some(token)
    ensures Run(s, [a]) == Step(s, a)
    ensures OwnActions([a], token) == [a] && StagesWithin(OwnActions([a], token), Stage(a), Stage(a))
  {
    OwnFirst(s, [], a, token);
    assert [] + [a] == [a] && Run(s, []) == s;
  }

  /** Which of the completing blocks an attempt may run is decided by its phase and its record. */
  lemma BlockSteps(s: Saga, t: Token, url: Option<string>, status: ProviderStatus)
    requires t in s.attempts
    ensures s.attempts[t].Ready? && s.attempts[t].record.mode != LocalMode ==>
              Step(s, CompleteResult(t, url, status)) == DoCompleteResult(s, t, url, status)
    ensures s.attempts[t].Ready? && s.attempts[t].record.mode == LocalMode ==> Step(s, LinkLocal(t)) == DoLinkLocal(s, t)
    ensures s.attempts[t].Loaded? && RouteOf(s.attempts[t].record) == LinkedRoute ==>
              Step(s, CompleteLinked(t)) == DoCompleteLinked(s, t)
  {
    hide DoCompleteResult, DoLinkLocal, DoCompleteLinked;
  }

  lemma ClaimSteps(s: Saga, t: Token)
    ensures t !in s.attempts ==> Step(s, Check(t)) == DoCheck(s, t)
    ensures t in s.attempts && s.attempts[t].Checked? ==> Step(s, Claim(t)) == DoClaim(s, t)
  {
    hide DoCheck, DoClaim;
  }

  lemma CallerParts(s: Saga, c: int)
    requires SagaOk(s) && c in s.callers
    ensures CallerOk(s.callers[c], s.op, s.nextId)
  {
  }

  lemma TakenIfLinked(s: Saga, payment: PaymentId)
    requires SagaOk(s) && s.op.Some? && s.op.value.result.Some? && s.op.value.result.value.payment == payment
    requires !PaymentTaken(s, payment)
    ensures s.txns == map[]
  {
  }
}
