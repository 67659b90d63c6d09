/**
 The crash-tolerant payment saga of one idempotency identity.

 Any number of request handlers and reconciliation attempts work on the operation at once, and any
 of them may stop for good between two of its steps. Every action is one database transaction or one
 provider call; time passes by `Tick`. The reconciliation block that checks a row and then claims it
 is two actions, so that the claim may be late.
 */
module PaymentSaga {
  import opened Common
  import opened PaymentStore

  /** A request handler, from its claim to the end of its work. */
  datatype Caller =
    | Leader(op: int, key: ProviderKey, until: int)
    | Crossed(op: int, key: ProviderKey, plan: Plan)
    | Charged(op: int, key: ProviderKey, plan: Plan, result: ProviderResult)
    | Recorded(op: int, key: ProviderKey, plan: Plan, result: ProviderResult)
    | Finished

  datatype Failure = Permanent | Transient

  /** A reconciliation attempt; `record` is the row as the attempt read it after claiming. */
  datatype Attempt =
    | Checked(op: int, at: int)
    | Holder(op: int)
    | Loaded(record: Op)
    | Obtained(record: Op, result: ProviderResult)
    | Ready(record: Op, result: ProviderResult)
    | Failing(record: Op, failure: Failure)
    | Over

  datatype Who = ByCaller(caller: int) | ByAttempt(token: Token, record: Op)

  /** A provider create call: for which operation, under which idempotency key, by whom (and on what it read). */
  datatype Call = Call(op: int, key: ProviderKey, who: Who)

  datatype Saga = Saga(
    op: Option<Op>, nextId: int, txns: map<int, Txn>, nextTxn: int, clock: int,
    callers: map<int, Caller>, attempts: map<Token, Attempt>, calls: seq<Call>, crossings: seq<int>)

  datatype StartResult = Leads(op: int, key: ProviderKey) | Replay(response: Response) | Conflict | OutcomeUnknown | InProgress

  datatype Action =
    | Tick(seconds: nat)
    | Start(caller: int, hash: string, key: ProviderKey)
    | Cross(caller: int, plan: Plan)
    | Charge(caller: int, result: ProviderResult)
    | Record(caller: int)
    | Commit(caller: int)
    | Stop(caller: int)
    | Check(token: Token)
    | Claim(token: Token)
    | Load(token: Token)
    | Recreate(token: Token, result: ProviderResult)
    | UseStored(token: Token)
    | Checkpoint(token: Token)
    | CompleteResult(token: Token, url: Option<string>, status: ProviderStatus)
    | CompleteLinked(token: Token)
    | LinkLocal(token: Token)
    | Fail(token: Token, failure: Failure)
    | Settle(token: Token)
    | SweepLeases
    | Event(event: TxnEvent)

  /** The row's attempt count stays; a token is taken off an UNKNOWN row only with a delay of at least five seconds. */
  predicate Paced(s: Saga, s': Saga) {
    match s'.op
    case None => s.op.None? || s.op.value.status == Claimed
    case Some(op) =>
      if s.op.None? then op.attempts == 0
      else
        && op.attempts == s.op.value.attempts
        && (op.status == Unknown && op.token.None? && s.op.value.token.Some? ==>
              op.nextAttempt.Some? && s.clock + MIN_RETRY_SECONDS <= op.nextAttempt.value)
        && (op.status == Unknown && s.op.value.status == Unknown && s.op.value.token.None? ==>
              op.token.None? && op.nextAttempt == s.op.value.nextAttempt)
        && (op.status == Unknown ==> s.op.value.status in {Processing, Unknown})
  }

  /** Only `start` makes or renews a claim. */
  predicate NoNewClaim(s: Saga, s': Saga) {
    s'.op.Some? && s'.op.value.status == Claimed ==> s'.op == s.op
  }

  /** Past the boundary of the side effect, and not yet done. */
  predicate Crossing(c: Caller) {
    c.Crossed? || c.Charged? || c.Recorded?
  }

  /** A handler's action moves that handler; besides it touches the row and the transactions. */
  predicate OnlyCaller(s: Saga, s': Saga, c: int) {
    && c in s'.callers && s'.callers == s.callers[c := s'.callers[c]]
    && s'.attempts == s.attempts && s'.clock == s.clock
  }

  /** An attempt's action moves that attempt; besides it touches the row and the transactions. */
  predicate OnlyAttempt(s: Saga, s': Saga, t: Token) {
    && t in s'.attempts
    && s' == s.(op := s'.op, txns := s'.txns, nextTxn := s'.nextTxn, attempts := s.attempts[t := s'.attempts[t]])
  }

  // ---------------------------------------------------------------- the request handler

  /** `start`: the row after its transaction, and what the caller is told. */
  function StartRow(s: Saga, hash: string, key: ProviderKey): (Op, StartResult) {
    match s.op
    case None => (NewOp(s.nextId, hash, key, s.clock), Leads(s.nextId, key))
    case Some(op) =>
      if op.hash != hash then (op, Conflict)
      else if op.status == Claimed then
        var reclaimed := ReclaimClaimed(op, s.clock);
        if reclaimed.Some? then (reclaimed.value, Leads(op.id, op.key)) else (op, InProgress)
      else
        var expired := ExpireProcessing(op, s.clock);
        var current := if expired.Some? then expired.value else op;
        (current,
         match current.status
         case Succeeded => if current.response.Some? then Replay(current.response.value) else OutcomeUnknown
         case Unknown => OutcomeUnknown
         case ManualRequired => OutcomeUnknown
         case _ => InProgress)
  }

  function DoStart(s: Saga, caller: int, hash: string, key: ProviderKey): (s': Saga)
    ensures Paced(s, s')
    ensures OnlyCaller(s, s', caller) && s'.calls == s.calls && s'.crossings == s.crossings
    ensures s'.callers[caller].Leader? || s'.callers[caller].Finished?
  {
    var (row, result) := StartRow(s, hash, key);
    s.(op := Some(row),
       nextId := if s.op.None? then s.nextId + 1 else s.nextId,
       callers := s.callers[caller := if result.Leads? then Leader(result.op, result.key, s.clock + CLAIM_LEASE) else Finished])
  }

  function DoCross(s: Saga, caller: int, plan: Plan): (s': Saga)
    requires caller in s.callers && s.callers[caller].Leader?
    ensures Paced(s, s') && NoNewClaim(s, s')
    ensures OnlyCaller(s, s', caller) && s'.calls == s.calls
    ensures s'.callers[caller].Crossed? ==>
              s.op.Some? && s.op.value.status == Claimed && s'.crossings == s.crossings + [s.callers[caller].op]
    ensures !s'.callers[caller].Crossed? ==> s' == s.(callers := s.callers[caller := Finished])
  {
    var me := s.callers[caller];
    var row := if s.op.Some? && s.op.value.id == me.op then MarkProcessing(s.op.value, plan, s.clock) else None;
    if row.None? then s.(callers := s.callers[caller := Finished])
    else s.(op := row, callers := s.callers[caller := Crossed(me.op, me.key, plan)], crossings := s.crossings + [me.op])
  }

  /** The handler's provider call; a free payment is local and calls nobody. */
  function DoCharge(s: Saga, caller: int, result: ProviderResult): (s': Saga)
    requires caller in s.callers && s.callers[caller].Crossed?
    ensures OnlyCaller(s, s', caller) && s'.nextId == s.nextId && s'.crossings == s.crossings && s'.op == s.op
    ensures s' == s || (s'.callers[caller].Charged?
              && (s'.calls == s.calls || s'.calls == s.calls + [Call(s.callers[caller].op, s.callers[caller].key, ByCaller(caller))]))
  {
    var me := s.callers[caller];
    if me.plan.mode == LocalMode then
      match me.plan.request
      case LocalRequest(payment) =>
        s.(callers := s.callers[caller := Charged(me.op, me.key, me.plan, ProviderResult(payment, None, Local))])
      case _ => s
    else
      s.(callers := s.callers[caller := Charged(me.op, me.key, me.plan, result)],
         calls := s.calls + [Call(me.op, me.key, ByCaller(caller))])
  }

  function DoRecord(s: Saga, caller: int): (s': Saga)
    requires caller in s.callers && s.callers[caller].Charged?
    ensures Paced(s, s') && NoNewClaim(s, s')
    ensures OnlyCaller(s, s', caller) && s'.calls == s.calls && s'.nextId == s.nextId && s'.crossings == s.crossings
    ensures !s'.callers[caller].Crossed? && !s'.callers[caller].Leader? && (Crossing(s'.callers[caller]) ==> Crossing(s.callers[caller]))
  {
    var me := s.callers[caller];
    var row := if s.op.Some? && s.op.value.id == me.op then CheckpointProviderResult(s.op.value, me.result) else None;
    if row.None? then s
    else s.(op := row, callers := s.callers[caller := Recorded(me.op, me.key, me.plan, me.result)])
  }

  /** The unique index on the payment id. */
  predicate PaymentTaken(s: Saga, payment: PaymentId) {
    exists t :: 0 <= t < s.nextTxn && t in s.txns && s.txns[t].payment == payment
  }

  /** Create the transaction, link it, and complete a paid operation: all of it commits, or none. */
  function DoCommit(s: Saga, caller: int): (s': Saga)
    requires caller in s.callers && s.callers[caller].Recorded?
    ensures Paced(s, s') && NoNewClaim(s, s')
    ensures OnlyCaller(s, s', caller) && s'.calls == s.calls && s'.nextId == s.nextId && s'.crossings == s.crossings
    ensures !s'.callers[caller].Crossed? && !s'.callers[caller].Leader? && (Crossing(s'.callers[caller]) ==> Crossing(s.callers[caller]))
  {
    var me := s.callers[caller];
    if s.op.None? || s.op.value.id != me.op || PaymentTaken(s, me.result.payment) then s
    else if !me.plan.terms.free && (me.result.status == Paid || me.result.status == Canceled) then s
    else
      var txn := NewTxn(me.result.payment, me.plan.terms, TxnPending, None);
      var txns := s.txns[s.nextTxn := txn];
      var linked := LinkTransaction(s.op.value, s.nextTxn);
      if linked.None? then s
      else
        var row := if me.plan.terms.free then linked
                   else Complete(linked.value, txns, BuildResponse(txn, me.result.url));
        if row.None? then s
        else s.(op := row, txns := txns, nextTxn := s.nextTxn + 1, callers := s.callers[caller := Finished])
  }

  /** The handler failed: UNKNOWN once the side effect may have begun, else the claim is given up. */
  function DoStop(s: Saga, caller: int): (s': Saga)
    requires caller in s.callers
    ensures Paced(s, s') && NoNewClaim(s, s')
    ensures OnlyCaller(s, s', caller) && s'.calls == s.calls && s'.nextId == s.nextId && s'.crossings == s.crossings
    ensures !s'.callers[caller].Crossed? && !s'.callers[caller].Leader? && (Crossing(s'.callers[caller]) ==> Crossing(s.callers[caller]))
  {
    var done := s.(callers := s.callers[caller := Finished]);
    match s.callers[caller]
    case Finished => s
    case Leader(id, _, _) =>
      if s.op.Some? && s.op.value.id == id && s.op.value.status == Claimed then done.(op := None) else done
    case _ =>
      if s.op.Some? && s.op.value.id == s.callers[caller].op && MarkUnknown(s.op.value).Some?
      then done.(op := MarkUnknown(s.op.value))
      else done
  }

  // ---------------------------------------------------------------- claiming for reconciliation

  /** The row after the statements that retire it: a stale claim deleted, a stale run expired, or manual. */
  function Retired(op: Op, now: int): Option<Op> {
    if op.status == Claimed && LeaseOver(op, now) then None
    else
      var current := if ExpireProcessing(op, now).Some? then ExpireProcessing(op, now).value else op;
      Some(Exhausted(current, now))
  }

  function Exhausted(op: Op, now: int): Op {
    var replayed := if MarkExpiredReplayManual(op, now).Some? then MarkExpiredReplayManual(op, now).value else op;
    if MarkExhaustedManual(replayed).Some? then MarkExhaustedManual(replayed).value else replayed
  }

  function DoCheck(s: Saga, token: Token): (s': Saga)
    ensures Paced(s, s') && NoNewClaim(s, s')
    ensures OnlyAttempt(s, s', token) && !s'.attempts[token].Loaded?
    ensures s'.attempts[token].Checked? ==>
              && s'.op.Some? && s'.attempts[token].at == s.clock
              && (s'.op.value.token.None? ==> s'.op.value.attempts < MAX_RECONCILIATION_ATTEMPTS)
  {
    if s.op.None? then s.(attempts := s.attempts[token := Over])
    else
      var row := Retired(s.op.value, s.clock);
      s.(op := row,
         attempts := s.attempts[token := if row.Some? && row.value.status == Unknown
                                         then Checked(row.value.id, s.clock) else Over])
  }

  function DoClaim(s: Saga, token: Token): (s': Saga)
    requires token in s.attempts && s.attempts[token].Checked?
    ensures NoNewClaim(s, s')
    ensures OnlyAttempt(s, s', token) && !s'.attempts[token].Loaded? && !s'.attempts[token].Checked?
  {
    var id := s.attempts[token].op;
    if s.op.None? || s.op.value.id != id then s.(attempts := s.attempts[token := Over])
    else
      var row := ClaimReconciliation(s.op.value, token, s.clock);
      if row.Some? then s.(op := row, attempts := s.attempts[token := Holder(id)])
      else s.(op := Some(Exhausted(s.op.value, s.clock)), attempts := s.attempts[token := Over])
  }

  function DoLoad(s: Saga, token: Token): (s': Saga)
    requires token in s.attempts && s.attempts[token].Holder?
    ensures OnlyAttempt(s, s', token) && s'.op == s.op && !s'.attempts[token].Checked?
    ensures s'.attempts[token].Loaded? ==> s.op == Some(s'.attempts[token].record)
  {
    if s.op.Some? && s.op.value.id == s.attempts[token].op
    then s.(attempts := s.attempts[token := Loaded(s.op.value)])
    else s.(attempts := s.attempts[token := Over])
  }

  // ---------------------------------------------------------------- obtaining a result

  datatype Route = LinkedRoute | LocalRoute | StoredRoute | ProviderRoute

  /** The branches of `_reconcile_claimed`, in its order. */
  function RouteOf(record: Op): Route {
    if record.transaction.Some? then LinkedRoute
    else if record.mode == LocalMode then LocalRoute
    else if record.result.Some? then StoredRoute
    else ProviderRoute
  }

  /** The only path to a provider create call: nothing linked, nothing checkpointed, a replayable gateway. */
  predicate MayRecreate(record: Op) {
    && RouteOf(record) == ProviderRoute && record.mode == YookassaReplay && record.yookassa
    && record.owner.Some? && record.request == Some(GatewayRequest(true))
  }

  function DoRecreate(s: Saga, token: Token, result: ProviderResult): Saga
    requires token in s.attempts && s.attempts[token].Loaded?
  {
    var record := s.attempts[token].record;
    if !MayRecreate(record) then s.(attempts := s.attempts[token := Failing(record, Permanent)])
    else s.(attempts := s.attempts[token := Obtained(record, result)],
            calls := s.calls + [Call(record.id, record.key, ByAttempt(token, record))])
  }

  /** A local payment's result comes from the stored request; a stored result is used as it is. */
  function DoUseStored(s: Saga, token: Token): (s': Saga)
    requires token in s.attempts && s.attempts[token].Loaded?
    ensures Paced(s, s') && NoNewClaim(s, s')
    ensures OnlyAttempt(s, s', token) && !s'.attempts[token].Loaded? && !s'.attempts[token].Checked?
  {
    var record := s.attempts[token].record;
    var next :=
      if record.result.Some? then Ready(record, record.result.value)
      else if record.mode == LocalMode && record.request.Some? && record.request.value.LocalRequest?
      then Obtained(record, ProviderResult(record.request.value.payment, None, Local))
      else Failing(record, Permanent);
    s.(attempts := s.attempts[token := next])
  }

  function DoCheckpoint(s: Saga, token: Token): (s': Saga)
    requires token in s.attempts && s.attempts[token].Obtained?
    ensures Paced(s, s') && NoNewClaim(s, s')
    ensures OnlyAttempt(s, s', token) && !s'.attempts[token].Loaded? && !s'.attempts[token].Checked?
  {
    var Obtained(record, result) := s.attempts[token];
    var row := if s.op.Some? && s.op.value.id == record.id
               then CheckpointReconciliation(s.op.value, token, result, s.clock) else None;
    if row.None? then s.(attempts := s.attempts[token := Failing(record, Transient)])
    else s.(op := row, attempts := s.attempts[token := Ready(record, result)])
  }

  // ---------------------------------------------------------------- completing

  /** The transactions after `_ensure_transaction`, and the one it returned. */
  datatype Ensured = NoTransaction | Ensured(txns: map<int, Txn>, id: int)

  function EnsureTransaction(
    s: Saga, op: Op, payment: PaymentId, status: TxnStatus, reason: Option<CancelReason>): (r: Ensured)
    ensures r.Ensured? ==> r.id in r.txns
  {
    if op.terms.None? || !op.terms.value.readable then NoTransaction
    else if PaymentTaken(s, payment) then
      var found := FindPayment(s, payment, 0);
      if s.txns[found].terms == op.terms.value then Ensured(s.txns, found) else NoTransaction
    else Ensured(s.txns[s.nextTxn := NewTxn(payment, op.terms.value, status, reason)], s.nextTxn)
  }

  function FindPayment(s: Saga, payment: PaymentId, from: int): (t: int)
    requires exists x :: from <= x < s.nextTxn && x in s.txns && s.txns[x].payment == payment
    ensures t in s.txns && s.txns[t].payment == payment
    decreases s.nextTxn - from
  {
    if from in s.txns && s.txns[from].payment == payment then from else FindPayment(s, payment, from + 1)
  }

  /** `_ensure_recovered_transaction`: a canceled payment also cancels a transaction that was there. */
  function EnsureRecovered(s: Saga, op: Op, result: ProviderResult): (r: Ensured)
    ensures r.Ensured? ==> r.id in r.txns
  {
    var canceled := result.status == Canceled;
    var ensured := EnsureTransaction(s, op, result.payment,
                                     if canceled then TxnCanceled else TxnPending,
                                     if canceled then Some(ByProvider) else None);
    if ensured.NoTransaction? || !canceled then ensured
    else
      var txn := ensured.txns[ensured.id];
      if txn.status == TxnCanceled && txn.reason == Some(ByProvider) then ensured
      else if CancelByProvider(txn).None? then NoTransaction
      else Ensured(ensured.txns[ensured.id := CancelByProvider(txn).value], ensured.id)
  }

  datatype Disposition = Enqueue | NothingToDo | Conflicting

  function SuccessEvent(txn: Txn): Disposition {
    if txn.status == TxnPending || (txn.status == TxnCanceled && txn.reason == Some(LocalTimeout)) then Enqueue
    else if txn.status == TxnRefunded || txn.status == TxnCompleted then NothingToDo
    else Conflicting
  }

  function Queued(txn: Txn, disposition: Disposition): Txn {
    if disposition == Enqueue then txn.(queued := true) else txn
  }

  function Failed(s: Saga, token: Token, record: Op, failure: Failure): Saga {
    s.(attempts := s.attempts[token := Failing(record, failure)])
  }

  /** The row an attempt works on: absent once the attempt's token is no longer on it. */
  function Refreshed(s: Saga, token: Token, record: Op): Option<Op> {
    if s.op.Some? && s.op.value.id == record.id && s.op.value.token == Some(token) then s.op else None
  }

  function Verified(record: Op, result: ProviderResult, url: Option<string>, status: ProviderStatus): ProviderResult {
    if record.yookassa then ProviderResult(result.payment, if url.Some? then url else result.url, status) else result
  }

  /** A write of one block: the row and the transactions together, or a rollback when the fence is lost. */
  function Committed(s: Saga, token: Token, record: Op, row: Option<Op>, txns: map<int, Txn>): Saga {
    if row.None? then Failed(s, token, record, Transient)
    else s.(op := row, txns := txns, nextTxn := if s.nextTxn in txns then s.nextTxn + 1 else s.nextTxn,
            attempts := s.attempts[token := Over])
  }

  /** `_verify_checkpointed_result` and `_complete_with_result`. */
  function DoCompleteResult(s: Saga, token: Token, url: Option<string>, status: ProviderStatus): (s': Saga)
    requires token in s.attempts && s.attempts[token].Ready?
    ensures Paced(s, s') && NoNewClaim(s, s')
    ensures OnlyAttempt(s, s', token) && !s'.attempts[token].Loaded? && !s'.attempts[token].Checked?
  {
    var Ready(record, stored) := s.attempts[token];
    var result := Verified(record, stored, url, status);
    var refreshed := Refreshed(s, token, record);
    if record.yookassa
       && (status == NoStatus || status == Local || record.owner.None? || record.request != Some(GatewayRequest(true)))
    then Failed(s, token, record, Permanent)
    else if refreshed.None? then Failed(s, token, record, Transient)
    else
      var op := refreshed.value;
      var ensured := EnsureRecovered(s, op, result);
      if ensured.NoTransaction? then Failed(s, token, record, Permanent)
      else
        var txn := ensured.txns[ensured.id];
        var proof := NeedsProof(op, txn);
        if proof && result.status != Paid then Failed(s, token, record, Permanent)
        else if result.status == Paid && SuccessEvent(txn) == Conflicting then Failed(s, token, record, Permanent)
        else
          var queued := if result.status == Paid then ensured.txns[ensured.id := Queued(txn, SuccessEvent(txn))]
                        else ensured.txns;
          var row := if result.status == Paid && proof
                     then LinkPendingFulfillment(op, token, ensured.id, result, s.clock)
                     else CompleteReconciliation(op, token, ensured.id, BuildResponse(txn, result.url), Some(result), s.clock);
          Committed(s, token, record, row, queued)
  }

  datatype Proof = Proven | InReview | Await(enqueue: bool)

  /** `_require_or_enqueue_fulfillment`. */
  function FulfillmentProof(txn: Txn): Proof {
    if ProvesFulfillment(txn) then Proven
    else if txn.fulfillment == FulfillmentManual then InReview
    else if txn.fulfillment == Fulfilling then Await(false)
    else if txn.status == TxnRefunded then InReview
    else if txn.status == TxnCanceled && txn.reason != Some(LocalTimeout) then InReview
    else if txn.status == TxnFailed then InReview
    else Await(true)
  }

  /** `_complete_linked`. */
  function DoCompleteLinked(s: Saga, token: Token): (s': Saga)
    requires token in s.attempts && s.attempts[token].Loaded?
    ensures Paced(s, s') && NoNewClaim(s, s')
    ensures OnlyAttempt(s, s', token) && !s'.attempts[token].Loaded? && !s'.attempts[token].Checked?
  {
    var record := s.attempts[token].record;
    var refreshed := Refreshed(s, token, record);
    if refreshed.None? || refreshed.value.transaction.None? || refreshed.value.transaction.value !in s.txns
    then Failed(s, token, record, Transient)
    else
      var op := refreshed.value;
      var id := op.transaction.value;
      var txn := s.txns[id];
      var paid := op.result.Some? && op.result.value.status == Paid;
      if paid && SuccessEvent(txn) == Conflicting then Failed(s, token, record, Permanent)
      else
        var noted := if paid then Queued(txn, SuccessEvent(txn)) else txn;
        var proof := if NeedsProof(op, txn) then FulfillmentProof(txn) else Proven;
        match proof
        case InReview => Failed(s, token, record, Permanent)
        case Await(enqueue) =>
          Failed(s.(txns := s.txns[id := noted.(queued := noted.queued || enqueue)]), token, record, Transient)
        case Proven =>
          var url := if op.result.Some? then op.result.value.url else None;
          Committed(s, token, record,
                    CompleteReconciliation(op, token, id, BuildResponse(txn, url), op.result, s.clock),
                    s.txns[id := noted])
  }

  /** `_create_local_transaction_for_fulfillment`. */
  function DoLinkLocal(s: Saga, token: Token): (s': Saga)
    requires token in s.attempts && s.attempts[token].Ready?
    ensures Paced(s, s') && NoNewClaim(s, s')
    ensures OnlyAttempt(s, s', token) && !s'.attempts[token].Loaded? && !s'.attempts[token].Checked?
  {
    var Ready(record, result) := s.attempts[token];
    var refreshed := Refreshed(s, token, record);
    if refreshed.None? then Failed(s, token, record, Transient)
    else
      var ensured := EnsureTransaction(s, refreshed.value, result.payment, TxnPending, None);
      if ensured.NoTransaction? then Failed(s, token, record, Permanent)
      else
        Committed(s, token, record,
                  LinkPendingFulfillment(refreshed.value, token, ensured.id, result, s.clock),
                  ensured.txns[ensured.id := ensured.txns[ensured.id].(queued := true)])
  }

  /** `_manual` or `_release`, as the failure and the number of attempts decide. */
  function DoSettle(s: Saga, token: Token): (s': Saga)
    requires token in s.attempts && s.attempts[token].Failing?
    ensures Paced(s, s') && NoNewClaim(s, s')
    ensures OnlyAttempt(s, s', token) && !s'.attempts[token].Loaded? && !s'.attempts[token].Checked?
  {
    var Failing(record, failure) := s.attempts[token];
    var done := s.(attempts := s.attempts[token := Over]);
    if s.op.None? || s.op.value.id != record.id then done
    else
      var row := if failure == Permanent || record.attempts >= MAX_RECONCILIATION_ATTEMPTS
                 then MarkManualRequired(s.op.value, token, s.clock)
                 else ReleaseReconciliation(s.op.value, token, RetryDelay(record.attempts), s.clock);
      if row.Some? then done.(op := row) else done
  }

  // ---------------------------------------------------------------- the machine

  predicate InPhase(s: Saga, a: Action) {
    match a
    case Start(c, _, _) => c !in s.callers
    case Cross(c, plan) => c in s.callers && s.callers[c].Leader? && PlanOk(plan)
    case Charge(c, _) => c in s.callers && s.callers[c].Crossed?
    case Record(c) => c in s.callers && s.callers[c].Charged?
    case Commit(c) => c in s.callers && s.callers[c].Recorded?
    case Stop(c) => c in s.callers
    case Check(t) => t !in s.attempts
    case Claim(t) => t in s.attempts && s.attempts[t].Checked?
    case Load(t) => t in s.attempts && s.attempts[t].Holder?
    case Recreate(t, _) => t in s.attempts && s.attempts[t].Loaded? && RouteOf(s.attempts[t].record) == ProviderRoute
    case UseStored(t) =>
      t in s.attempts && s.attempts[t].Loaded?
      && (RouteOf(s.attempts[t].record) == LocalRoute || RouteOf(s.attempts[t].record) == StoredRoute)
    case Checkpoint(t) => t in s.attempts && s.attempts[t].Obtained?
    case CompleteResult(t, _, _) => t in s.attempts && s.attempts[t].Ready? && s.attempts[t].record.mode != LocalMode
    case CompleteLinked(t) => t in s.attempts && s.attempts[t].Loaded? && RouteOf(s.attempts[t].record) == LinkedRoute
    case LinkLocal(t) => t in s.attempts && s.attempts[t].Ready? && s.attempts[t].record.mode == LocalMode
    case Fail(t, _) =>
      t in s.attempts && (s.attempts[t].Loaded? || s.attempts[t].Obtained? || s.attempts[t].Ready?)
    case Settle(t) => t in s.attempts && s.attempts[t].Failing?
    case _ => true
  }

  function Step(s: Saga, a: Action): Saga {
    if !InPhase(s, a) then s
    else
      match a
      case Tick(seconds) => s.(clock := s.clock + seconds)
      case Start(c, hash, key) => DoStart(s, c, hash, key)
      case Cross(c, plan) => DoCross(s, c, plan)
      case Charge(c, result) => DoCharge(s, c, result)
      case Record(c) => DoRecord(s, c)
      case Commit(c) => DoCommit(s, c)
      case Stop(c) => DoStop(s, c)
      case Check(t) => DoCheck(s, t)
      case Claim(t) => DoClaim(s, t)
      case Load(t) => DoLoad(s, t)
      case Recreate(t, result) => DoRecreate(s, t, result)
      case UseStored(t) => DoUseStored(s, t)
      case Checkpoint(t) => DoCheckpoint(s, t)
      case CompleteResult(t, url, status) => DoCompleteResult(s, t, url, status)
      case CompleteLinked(t) => DoCompleteLinked(s, t)
      case LinkLocal(t) => DoLinkLocal(s, t)
      case Fail(t, failure) => Failed(s, t, s.attempts[t].record, failure)
      case Settle(t) => DoSettle(s, t)
      case SweepLeases =>
        if s.op.Some? && ExpireReconciliation(s.op.value, s.clock).Some?
        then s.(op := ExpireReconciliation(s.op.value, s.clock)) else s
      case Event(event) => s.(txns := map t | t in s.txns :: Happens(s.txns[t], event, s.clock))
  }

  function Run(s: Saga, actions: seq<Action>): Saga
    decreases |actions|
  {
    if actions == [] then s else Run(Step(s, actions[0]), actions[1..])
  }

  function Fresh(clock: int): Saga {
    Saga(None, 1, map[], 1, clock, map[], map[], [], [])
  }
}
