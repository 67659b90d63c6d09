/** What every run of the payment saga keeps. */
module PaymentSafety {
  import opened Common
  import opened PaymentStore
  import opened PaymentSaga

  // ---------------------------------------------------------------- the invariant

  predicate Started(op: Op) {
    op.status != Claimed
  }

  predicate RowOk(op: Op, clock: int) {
    && (op.status == Claimed ==>
          && op.leaseUntil.Some? && op.terms.None? && op.result.None? && op.transaction.None?
          && op.attempts == 0 && op.token.None? && op.nextAttempt.None? && op.mode == ManualMode)
    && (op.status == Processing ==> op.leaseUntil.Some? && op.attempts == 0 && op.token.None? && op.nextAttempt.None?)
    && (Started(op) ==> op.terms.Some? && (op.terms.value.free <==> op.mode == LocalMode))
    && (op.token.Some? <==> op.tokenUntil.Some?)
    && (op.token.Some? ==>
          op.attempts > 0 && (op.status == Unknown || (op.status == ManualRequired && op.tokenUntil.value <= clock)))
    && (op.status == Succeeded ==>
          op.transaction.Some? && op.response.Some? && op.result.Some? && op.response.value.payment == op.result.value.payment)
    && (op.transaction.Some? ==> op.result.Some?)
  }

  /** How often a row can have been claimed, and why it cannot be claimed again. */
  predicate CountOk(op: Op) {
    && op.attempts <= MAX_RECONCILIATION_ATTEMPTS + 1
    && (op.attempts == MAX_RECONCILIATION_ATTEMPTS + 1 ==> op.transaction.Some? && (op.status == Unknown ==> op.token.Some?))
    && (op.attempts == MAX_RECONCILIATION_ATTEMPTS && op.status == Unknown && op.token.None? ==>
          op.transaction.Some? && op.nextAttempt.Some?)
  }

  /** At most one local transaction, there exactly when it is linked, for the checkpointed payment. */
  predicate TxnOk(s: Saga) {
    match s.op
    case None => s.txns == map[]
    case Some(op) =>
      match op.transaction
      case None => s.txns == map[]
      case Some(t) =>
        && s.txns.Keys == {t} && 0 <= t < s.nextTxn
        && op.result.Some? && s.txns[t].payment == op.result.value.payment
        && op.terms.Some? && s.txns[t].terms == op.terms.value
        && (op.status == Succeeded && NeedsProof(op, s.txns[t]) ==> ProvesFulfillment(s.txns[t]))
  }

  /** A caller past the boundary works on the row, under the row's key and the row's plan. */
  predicate CallerOk(c: Caller, op: Option<Op>, nextId: int) {
    match c
    case Finished => true
    case Leader(id, key, _) => id < nextId && (op.Some? && op.value.id == id ==> key == op.value.key)
    case _ =>
      && op.Some? && op.value.id == c.op && op.value.key == c.key && Started(op.value)
      && op.value.terms == Some(c.plan.terms) && op.value.mode == c.plan.mode
      && (c.Recorded? ==> op.value.result.Some? && op.value.result.value.payment == c.result.payment)
  }

  predicate Active(a: Attempt) {
    a.Holder? || a.Loaded? || a.Obtained? || a.Ready? || a.Failing?
  }

  /** What an attempt read of the row is still true of the row. */
  predicate RecordOk(record: Op, op: Op) {
    && record.id == op.id && record.key == op.key && record.attempts == op.attempts
    && record.mode == op.mode && record.terms == op.terms && record.request == op.request
    && record.yookassa == op.yookassa && record.owner == op.owner
    && (record.result.Some? ==> op.result.Some? && op.result.value.payment == record.result.value.payment)
    && (record.transaction.Some? ==> op.transaction == record.transaction)
  }

  predicate AttemptOk(t: Token, a: Attempt, op: Option<Op>, nextId: int, clock: int) {
    && (a.Checked? ==> a.op < nextId && a.at <= clock)
    && (Active(a) ==> op.Some? && op.value.token == Some(t))
    && (a.Holder? ==> a.op == op.value.id)
    && (Active(a) && !a.Holder? ==> RecordOk(a.record, op.value))
    && (a.Ready? ==> op.value.result.Some? && op.value.result.value.payment == a.result.payment)
  }

  predicate CallOk(c: Call, op: Option<Op>) {
    && op.Some? && Started(op.value) && c.op == op.value.id && c.key == op.value.key
    && (c.who.ByAttempt? ==> MayRecreate(c.who.record))
  }

  predicate SagaOk(s: Saga) {
    && (s.op.Some? ==> RowOk(s.op.value, s.clock) && CountOk(s.op.value) && s.op.value.id < s.nextId)
    && TxnOk(s) && s.nextTxn >= 0
    && (forall c :: c in s.callers ==> CallerOk(s.callers[c], s.op, s.nextId))
    && (forall t :: t in s.attempts ==> AttemptOk(t, s.attempts[t], s.op, s.nextId, s.clock))
    && (forall c :: c in s.calls ==> CallOk(c, s.op))
    && s.crossings == (if s.op.Some? && Started(s.op.value) then [s.op.value.id] else [])
    && (s.op.Some? && s.op.value.token.Some? ==> s.op.value.token.value in s.attempts)
  }

  // ---------------------------------------------------------------- how a row may change

  /** Whatever a write does to a started row, these facts about it stay. */
  predicate Evolves(was: Op, op: Op) {
    && op.id == was.id && op.key == was.key && op.hash == was.hash
    && (Started(was) ==>
          && Started(op) && op.terms == was.terms && op.mode == was.mode && op.request == was.request
          && op.yookassa == was.yookassa && op.owner == was.owner && op.replayUntil == was.replayUntil)
    && (was.result.Some? ==> op.result.Some? && op.result.value.payment == was.result.value.payment)
    && (was.transaction.Some? ==> op.transaction == was.transaction)
    && was.attempts <= op.attempts
  }

  predicate Settled(op: Op) {
    op.status == Succeeded || op.status == ManualRequired
  }

  /** One action: the row of a claim may be deleted; any other row evolves, and a settled one does not even do that. */
  predicate Follows(s: Saga, s': Saga) {
    s.op.Some? ==>
      match s'.op
      case None => s.op.value.status == Claimed
      case Some(op) => Evolves(s.op.value, op) && (Settled(s.op.value) ==> op == s.op.value)
  }

  predicate Kept(s: Saga, s': Saga) {
    SagaOk(s') && Follows(s, s')
  }

  /** Attempts other than `t` cannot tell the new row from the old one. */
  predicate TokenStays(was: Op, op: Op, t: Option<Token>) {
    was.token.Some? && was.token != t ==> op.token == was.token && op.attempts == was.attempts
  }

  lemma OthersKeep(s: Saga, op: Op, t: Option<Token>)
    requires SagaOk(s) && s.op.Some? && Evolves(s.op.value, op) && TokenStays(s.op.value, op, t)
    ensures forall x :: x in s.attempts && Some(x) != t ==> AttemptOk(x, s.attempts[x], Some(op), s.nextId, s.clock)
    ensures forall c :: c in s.callers ==> CallerOk(s.callers[c], Some(op), s.nextId)
    ensures forall c :: c in s.calls ==> CallOk(c, Some(op))
  {
    hide CountOk, TxnOk;
    forall x | x in s.attempts && Some(x) != t
      ensures AttemptOk(x, s.attempts[x], Some(op), s.nextId, s.clock)
    {
      assert AttemptOk(x, s.attempts[x], s.op, s.nextId, s.clock);
    }
    forall c | c in s.callers
      ensures CallerOk(s.callers[c], Some(op), s.nextId)
    {
      assert CallerOk(s.callers[c], s.op, s.nextId);
    }
  }

  /** What the invariant says of the row, the transactions and one attempt. */
  lemma Parts(s: Saga, t: Token)
    requires SagaOk(s) && s.op.Some?
    ensures RowOk(s.op.value, s.clock) && CountOk(s.op.value) && TxnOk(s) && s.nextTxn >= 0 && s.op.value.id < s.nextId
    ensures t in s.attempts ==> AttemptOk(t, s.attempts[t], s.op, s.nextId, s.clock)
  {
  }

  lemma HasRow(s: Saga, t: Token)
    requires SagaOk(s) && t in s.attempts && Active(s.attempts[t])
    ensures s.op.Some?
  {
    assert AttemptOk(t, s.attempts[t], s.op, s.nextId, s.clock);
  }

  /** Attempt `t` wrote the row: it is enough to look at the row, the transactions and `t`. */
  lemma RowWritten(s: Saga, s': Saga, t: Token)
    requires SagaOk(s) && s.op.Some? && s'.op.Some? && t in s'.attempts
    requires s' == s.(op := s'.op, txns := s'.txns, nextTxn := s'.nextTxn, attempts := s.attempts[t := s'.attempts[t]])
    requires Follows(s, s') && TokenStays(s.op.value, s'.op.value, Some(t))
    requires Started(s.op.value) == Started(s'.op.value)
    requires s'.op.value.token in [None, s.op.value.token, Some(t)]
    requires RowOk(s'.op.value, s'.clock) && CountOk(s'.op.value) && TxnOk(s') && s.nextTxn <= s'.nextTxn
    requires AttemptOk(t, s'.attempts[t], s'.op, s'.nextId, s'.clock)
    ensures Kept(s, s')
  {
    OthersKeep(s, s'.op.value, Some(t));
    hide RowOk, CountOk, TxnOk, Evolves, TokenStays, CallerOk, CallOk, AttemptOk;
  }

  // ---------------------------------------------------------------- the request handler

  lemma StartKeeps(s: Saga, caller: int, hash: string, key: ProviderKey)
    requires SagaOk(s) && caller !in s.callers
    ensures Kept(s, DoStart(s, caller, hash, key))
  {
    var s' := DoStart(s, caller, hash, key);
    if s.op.None? {
      forall t | t in s'.attempts
        ensures AttemptOk(t, s'.attempts[t], s'.op, s'.nextId, s'.clock)
      {
        assert AttemptOk(t, s.attempts[t], s.op, s.nextId, s.clock);
      }
      forall c | c in s'.callers
        ensures CallerOk(s'.callers[c], s'.op, s'.nextId)
      {
        if c != caller {
          assert CallerOk(s.callers[c], s.op, s.nextId);
        }
      }
    } else {
      OthersKeep(s, s'.op.value, None);
    }
  }

  lemma CrossKeeps(s: Saga, caller: int, plan: Plan)
    requires SagaOk(s) && caller in s.callers && s.callers[caller].Leader? && PlanOk(plan)
    ensures Kept(s, DoCross(s, caller, plan))
  {
    var s' := DoCross(s, caller, plan);
    assert CallerOk(s.callers[caller], s.op, s.nextId);
    if s'.op != s.op {
      OthersKeep(s, s'.op.value, None);
    }
  }

  lemma ChargeKeeps(s: Saga, caller: int, result: ProviderResult)
    requires SagaOk(s) && caller in s.callers && s.callers[caller].Crossed?
    ensures Kept(s, DoCharge(s, caller, result))
  {
    assert CallerOk(s.callers[caller], s.op, s.nextId);
  }

  lemma RecordKeeps(s: Saga, caller: int)
    requires SagaOk(s) && caller in s.callers && s.callers[caller].Charged?
    ensures Kept(s, DoRecord(s, caller))
  {
    var s' := DoRecord(s, caller);
    assert CallerOk(s.callers[caller], s.op, s.nextId);
    if s' != s {
      OthersKeep(s, s'.op.value, None);
    }
  }

  lemma CommitKeeps(s: Saga, caller: int)
    requires SagaOk(s) && caller in s.callers && s.callers[caller].Recorded?
    ensures Kept(s, DoCommit(s, caller))
  {
    var s' := DoCommit(s, caller);
    assert CallerOk(s.callers[caller], s.op, s.nextId);
    if s' != s {
      OthersKeep(s, s'.op.value, None);
    }
  }

  lemma StopKeeps(s: Saga, caller: int)
    requires SagaOk(s) && caller in s.callers
    ensures Kept(s, DoStop(s, caller))
  {
    var s' := DoStop(s, caller);
    assert CallerOk(s.callers[caller], s.op, s.nextId);
    if s'.op.Some? && s.op.Some? {
      OthersKeep(s, s'.op.value, None);
    } else if s.op.Some? {
      RowDeleted(s);
    }
  }

  /** Only a CLAIMED row is ever deleted, and nobody is past its claim. */
  lemma RowDeleted(s: Saga)
    requires SagaOk(s) && s.op.Some? && s.op.value.status == Claimed
    ensures Kept(s, s.(op := None))
  {
    forall t | t in s.attempts
      ensures AttemptOk(t, s.attempts[t], None, s.nextId, s.clock)
    {
      assert AttemptOk(t, s.attempts[t], s.op, s.nextId, s.clock);
    }
    forall c | c in s.callers
      ensures CallerOk(s.callers[c], None, s.nextId)
    {
      assert CallerOk(s.callers[c], s.op, s.nextId);
    }
  }

  // ---------------------------------------------------------------- reconciliation

  lemma GaveUp(s: Saga, token: Token)
    requires SagaOk(s) && s.op.None?
    ensures Kept(s, s.(attempts := s.attempts[token := Over]))
  {
  }

  lemma CheckKeeps(s: Saga, token: Token)
    requires SagaOk(s) && token !in s.attempts
    ensures Kept(s, DoCheck(s, token))
  {
    hide SagaOk;
    var s' := DoCheck(s, token);
    if s.op.Some? {
      Parts(s, token);
      if s'.op.Some? {
        RowWritten(s, s', token);
      } else {
        RowDeleted(s);
        GaveUp(s.(op := None), token);
      }
    } else {
      GaveUp(s, token);
    }
  }

  lemma ClaimKeeps(s: Saga, token: Token)
    requires SagaOk(s) && token in s.attempts && s.attempts[token].Checked?
    ensures Kept(s, DoClaim(s, token))
  {
    hide SagaOk;
    var s' := DoClaim(s, token);
    if s.op.Some? {
      Parts(s, token);
      RowWritten(s, s', token);
    } else {
      GaveUp(s, token);
    }
  }

  lemma LoadKeeps(s: Saga, token: Token)
    requires SagaOk(s) && token in s.attempts && s.attempts[token].Holder?
    ensures Kept(s, DoLoad(s, token))
  {
    assert AttemptOk(token, s.attempts[token], s.op, s.nextId, s.clock);
    OthersKeep(s, s.op.value, None);
  }

  lemma RecreateKeeps(s: Saga, token: Token, result: ProviderResult)
    requires SagaOk(s) && token in s.attempts && s.attempts[token].Loaded?
    ensures Kept(s, DoRecreate(s, token, result))
  {
    assert AttemptOk(token, s.attempts[token], s.op, s.nextId, s.clock);
  }

  lemma UseStoredKeeps(s: Saga, token: Token)
    requires SagaOk(s) && token in s.attempts && s.attempts[token].Loaded?
    ensures Kept(s, DoUseStored(s, token))
  {
    assert AttemptOk(token, s.attempts[token], s.op, s.nextId, s.clock);
  }

  lemma CheckpointKeeps(s: Saga, token: Token)
    requires SagaOk(s) && token in s.attempts && s.attempts[token].Obtained?
    ensures Kept(s, DoCheckpoint(s, token))
  {
    hide SagaOk;
    HasRow(s, token);
    Parts(s, token);
    RowWritten(s, DoCheckpoint(s, token), token);
  }

  lemma SettleKeeps(s: Saga, token: Token)
    requires SagaOk(s) && token in s.attempts && s.attempts[token].Failing?
    ensures Kept(s, DoSettle(s, token))
  {
    hide SagaOk;
    HasRow(s, token);
    Parts(s, token);
    RowWritten(s, DoSettle(s, token), token);
  }

  lemma SweepKeeps(s: Saga)
    requires SagaOk(s) && s.op.Some? && ExpireReconciliation(s.op.value, s.clock).Some?
    ensures Kept(s, s.(op := ExpireReconciliation(s.op.value, s.clock)))
  {
    OthersKeep(s, ExpireReconciliation(s.op.value, s.clock).value, None);
  }

  /** A fulfillment proof is never taken back, and a transaction never changes whose it is. */
  lemma ProofStays(txn: Txn, event: TxnEvent, now: int)
    ensures Happens(txn, event, now).payment == txn.payment && Happens(txn, event, now).terms == txn.terms
    ensures ProvesFulfillment(txn) ==> ProvesFulfillment(Happens(txn, event, now))
  {
  }

  lemma EventKeeps(s: Saga, event: TxnEvent)
    requires SagaOk(s)
    ensures Kept(s, s.(txns := map t | t in s.txns :: Happens(s.txns[t], event, s.clock)))
  {
    hide RowOk, CountOk, CallerOk, AttemptOk, CallOk;
    if s.op.Some? && s.op.value.transaction.Some? {
      ProofStays(s.txns[s.op.value.transaction.value], event, s.clock);
    }
  }

  // ---------------------------------------------------------------- completing

  /** The one transaction a block may leave behind: the linked one, or a new one for the checkpointed payment. */
  predicate Sole(s: Saga, op: Op, txns: map<int, Txn>, id: int) {
    && txns.Keys == {id}
    && (if s.txns == map[] then id == s.nextTxn else s.txns.Keys == {id})
    && op.result.Some? && txns[id].payment == op.result.value.payment && Some(txns[id].terms) == op.terms
    && (id in s.txns && ProvesFulfillment(s.txns[id]) ==> ProvesFulfillment(txns[id]))
  }

  lemma EnsuredIsSole(s: Saga, op: Op, payment: PaymentId, status: TxnStatus, reason: Option<CancelReason>)
    requires SagaOk(s) && s.op == Some(op) && op.result.Some? && op.result.value.payment == payment
    ensures var r := EnsureTransaction(s, op, payment, status, reason); r.Ensured? ==> Sole(s, op, r.txns, r.id)
  {
    hide RowOk, CountOk, CallerOk, AttemptOk, CallOk;
    if op.transaction.Some? && op.transaction.value in s.txns {
      assert PaymentTaken(s, s.txns[op.transaction.value].payment);
    }
  }

  lemma LinkedIsSole(s: Saga, op: Op)
    requires SagaOk(s) && s.op == Some(op) && op.transaction.Some?
    ensures op.transaction.value in s.txns && Sole(s, op, s.txns, op.transaction.value)
  {
  }

  lemma QueuedIsSole(s: Saga, op: Op, txns: map<int, Txn>, id: int, queued: bool)
    requires id in txns && Sole(s, op, txns, id)
    ensures Sole(s, op, txns[id := txns[id].(queued := queued)], id)
  {
  }

  /** Queueing a webhook event for the linked transaction. */
  lemma QueueKeeps(s: Saga, id: int, queued: bool)
    requires SagaOk(s) && id in s.txns
    ensures Kept(s, s.(txns := s.txns[id := s.txns[id].(queued := queued)]))
  {
    hide RowOk, CountOk, CallerOk, AttemptOk, CallOk;
  }

  lemma RecoveredIsSole(s: Saga, op: Op, result: ProviderResult)
    requires SagaOk(s) && s.op == Some(op) && op.result.Some? && op.result.value.payment == result.payment
    ensures var r := EnsureRecovered(s, op, result); r.Ensured? ==> Sole(s, op, r.txns, r.id)
  {
    hide SagaOk;
    var canceled := result.status == Canceled;
    EnsuredIsSole(s, op, result.payment, if canceled then TxnCanceled else TxnPending,
                  if canceled then Some(ByProvider) else None);
  }

  /** The block's last write links or completes, with the transaction of the checkpointed payment. */
  lemma CommittedKeeps(
    s: Saga, token: Token, row: Option<Op>, txns: map<int, Txn>, id: int, result: ProviderResult, response: Response)
    requires SagaOk(s) && token in s.attempts && Active(s.attempts[token]) && !s.attempts[token].Holder? && s.op.Some?
    requires var op := s.op.value;
             && Sole(s, op, txns, id) && result.payment == op.result.value.payment && response.payment == result.payment
             && (row == LinkPendingFulfillment(op, token, id, result, s.clock)
                 || (row == CompleteReconciliation(op, token, id, response, Some(result), s.clock)
                     && (NeedsProof(op, txns[id]) ==> ProvesFulfillment(txns[id]))))
    ensures Kept(s, Committed(s, token, s.attempts[token].record, row, txns))
  {
    hide SagaOk;
    HasRow(s, token);
    Parts(s, token);
    RowWritten(s, Committed(s, token, s.attempts[token].record, row, txns), token);
  }

  /** Or it fails, and nothing but the attempt has changed. */
  lemma FailedKeeps(s: Saga, token: Token, failure: Failure)
    requires SagaOk(s) && token in s.attempts && Active(s.attempts[token]) && !s.attempts[token].Holder?
    ensures Kept(s, Failed(s, token, s.attempts[token].record, failure))
  {
    assert AttemptOk(token, s.attempts[token], s.op, s.nextId, s.clock);
  }

  lemma CompleteResultKeeps(s: Saga, token: Token, url: Option<string>, status: ProviderStatus)
    requires SagaOk(s) && token in s.attempts && s.attempts[token].Ready? && s.attempts[token].record.mode != LocalMode
    ensures Kept(s, DoCompleteResult(s, token, url, status))
  {
    hide SagaOk, Sole, RowOk, CountOk, TxnOk, PaymentTaken, EnsureRecovered, Committed, LinkPendingFulfillment, CompleteReconciliation, Failed;
    HasRow(s, token);
    Parts(s, token);
    var Ready(record, stored) := s.attempts[token];
    var op := s.op.value;
    var result := Verified(record, stored, url, status);
    FailedKeeps(s, token, Permanent);
    FailedKeeps(s, token, Transient);
    RecoveredIsSole(s, op, result);
    var r := EnsureRecovered(s, op, result);
    if r.Ensured? && Refreshed(s, token, record).Some? {
      var txn := r.txns[r.id];
      var queued := result.status == Paid && SuccessEvent(txn) == Enqueue;
      var txns := r.txns[r.id := txn.(queued := txn.queued || queued)];
      QueuedIsSole(s, op, r.txns, r.id, txn.queued || queued);
      assert !queued ==> txns == r.txns;
      var response := BuildResponse(txn, result.url);
      CommittedKeeps(s, token, LinkPendingFulfillment(op, token, r.id, result, s.clock), txns, r.id, result, response);
      if !NeedsProof(op, txn) {
        CommittedKeeps(s, token, CompleteReconciliation(op, token, r.id, response, Some(result), s.clock), txns, r.id, result, response);
      }
    }
  }

  lemma CompleteLinkedKeeps(s: Saga, token: Token)
    requires SagaOk(s) && token in s.attempts && s.attempts[token].Loaded?
    ensures Kept(s, DoCompleteLinked(s, token))
  {
    hide SagaOk, Sole, RowOk, CountOk, Committed, CompleteReconciliation;
    HasRow(s, token);
    Parts(s, token);
    var op := s.op.value;
    FailedKeeps(s, token, Permanent);
    FailedKeeps(s, token, Transient);
    if op.transaction.Some? {
      LinkedIsSole(s, op);
      var id := op.transaction.value;
      var txn := s.txns[id];
      var result := op.result.value;
      var noted := if result.status == Paid then Queued(txn, SuccessEvent(txn)) else txn;
      var proof := if NeedsProof(op, txn) then FulfillmentProof(txn) else Proven;
      var queued := noted.queued || (proof.Await? && proof.enqueue);
      QueuedIsSole(s, op, s.txns, id, queued);
      QueueKeeps(s, id, queued);
      FailedKeeps(s.(txns := s.txns[id := txn.(queued := queued)]), token, Transient);
      if proof.Proven? {
        var response := BuildResponse(txn, result.url);
        CommittedKeeps(s, token, CompleteReconciliation(op, token, id, response, Some(result), s.clock),
                       s.txns[id := txn.(queued := queued)], id, result, response);
      }
    }
  }

  lemma LinkLocalKeeps(s: Saga, token: Token)
    requires SagaOk(s) && token in s.attempts && s.attempts[token].Ready?
    ensures Kept(s, DoLinkLocal(s, token))
  {
    hide SagaOk, Sole, RowOk, CountOk, TxnOk, PaymentTaken, EnsureTransaction;
    HasRow(s, token);
    Parts(s, token);
    var Ready(record, result) := s.attempts[token];
    var op := s.op.value;
    FailedKeeps(s, token, Permanent);
    FailedKeeps(s, token, Transient);
    EnsuredIsSole(s, op, result.payment, TxnPending, None);
    var r := EnsureTransaction(s, op, result.payment, TxnPending, None);
    if r.Ensured? && Refreshed(s, token, record).Some? {
      var txns := r.txns[r.id := r.txns[r.id].(queued := true)];
      QueuedIsSole(s, op, r.txns, r.id, true);
      CommittedKeeps(s, token, LinkPendingFulfillment(op, token, r.id, result, s.clock), txns, r.id, result,
                      Response(result.payment, None, TxnPending));
    }
  }

  // ---------------------------------------------------------------- every action

  lemma StepKeeps(s: Saga, a: Action)
    requires SagaOk(s)
    ensures Kept(s, Step(s, a))
  {
    hide SagaOk, AttemptOk, CallerOk, CallOk, TxnOk, RowOk, CountOk, PaymentTaken, MayRecreate;
    if InPhase(s, a) {
      match a
      case Tick(seconds) => TickKeeps(s, seconds);
      case Start(c, hash, key) => StartKeeps(s, c, hash, key);
      case Cross(c, plan) => CrossKeeps(s, c, plan);
      case Charge(c, result) => ChargeKeeps(s, c, result);
      case Record(c) => RecordKeeps(s, c);
      case Commit(c) => CommitKeeps(s, c);
      case Stop(c) => StopKeeps(s, c);
      case Check(t) => CheckKeeps(s, t);
      case Claim(t) => ClaimKeeps(s, t);
      case Load(t) => LoadKeeps(s, t);
      case Recreate(t, result) => RecreateKeeps(s, t, result);
      case UseStored(t) => UseStoredKeeps(s, t);
      case Checkpoint(t) => CheckpointKeeps(s, t);
      case CompleteResult(t, url, status) => CompleteResultKeeps(s, t, url, status);
      case CompleteLinked(t) => CompleteLinkedKeeps(s, t);
      case LinkLocal(t) => LinkLocalKeeps(s, t);
      case Fail(t, failure) => FailKeeps(s, t, failure);
      case Settle(t) => SettleKeeps(s, t);
      case SweepLeases => if s.op.Some? && ExpireReconciliation(s.op.value, s.clock).Some? { SweepKeeps(s); }
      case Event(event) => EventKeeps(s, event);
    }
  }

  lemma TickKeeps(s: Saga, seconds: nat)
    requires SagaOk(s)
    ensures Kept(s, s.(clock := s.clock + seconds))
  {
    var s' := s.(clock := s.clock + seconds);
    forall t | t in s.attempts
      ensures AttemptOk(t, s'.attempts[t], s'.op, s'.nextId, s'.clock)
    {
      assert AttemptOk(t, s.attempts[t], s.op, s.nextId, s.clock);
    }
  }

  lemma FailKeeps(s: Saga, token: Token, failure: Failure)
    requires SagaOk(s) && token in s.attempts
    requires s.attempts[token].Loaded? || s.attempts[token].Obtained? || s.attempts[token].Ready?
    ensures Kept(s, Failed(s, token, s.attempts[token].record, failure))
  {
    FailedKeeps(s, token, failure);
  }

  lemma {:induction false} RunKeeps(s: Saga, actions: seq<Action>)
    requires SagaOk(s)
    ensures SagaOk(Run(s, actions))
    decreases |actions|
  {
    hide SagaOk, Step;
    if actions != [] {
      StepKeeps(s, actions[0]);
      RunKeeps(Step(s, actions[0]), actions[1..]);
    }
  }

  lemma FreshIsOk(clock: int)
    ensures SagaOk(Fresh(clock))
  {
  }
}
