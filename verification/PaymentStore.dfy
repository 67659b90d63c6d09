/**
 The payment-operation row of one identity (user, operation, idempotency key) and its local
 transaction, with the guarded SQL updates of the data-access layer as functions. Each returns the
 new row, or None when its WHERE clause did not match. Time is in seconds.
 */
module PaymentStore {
  import opened Common

  const CLAIM_LEASE := 300
  const PROCESSING_LEASE := 1800
  const RECONCILIATION_LEASE := 300
  const MAX_RECONCILIATION_ATTEMPTS := 12
  const MIN_RETRY_SECONDS := 5
  const MAX_RETRY_SECONDS := 300
  const REPLAY_WINDOW := 23 * 3600

  type Token = nat
  type ProviderKey = nat
  type PaymentId = nat

  datatype Status = Claimed | Processing | Succeeded | Unknown | ManualRequired

  datatype Mode = ManualMode | LocalMode | YookassaReplay

  datatype ProviderStatus = NoStatus | Local | Pending | WaitingForCapture | Paid | Canceled

  datatype ProviderResult = ProviderResult(payment: PaymentId, url: Option<string>, status: ProviderStatus)

  /** What the resolved snapshot says of the deal; `readable` when the recovery parser accepts it. */
  datatype Terms = Terms(deal: string, free: bool, readable: bool)

  /** The stored provider request: a local payment id, or a gateway request that validates or not. */
  datatype Request = LocalRequest(payment: PaymentId) | GatewayRequest(valid: bool)

  datatype Response = Response(payment: PaymentId, url: Option<string>, status: TxnStatus)

  datatype Op = Op(
    id: int, hash: string, status: Status, key: ProviderKey, response: Option<Response>, leaseUntil: Option<int>,
    transaction: Option<int>, yookassa: bool, terms: Option<Terms>, request: Option<Request>, owner: Option<int>,
    result: Option<ProviderResult>, mode: Mode, replayUntil: Option<int>,
    token: Option<Token>, tokenUntil: Option<int>, attempts: nat, nextAttempt: Option<int>)

  datatype TxnStatus = TxnPending | TxnCompleted | TxnCanceled | TxnRefunded | TxnFailed

  datatype CancelReason = ByProvider | LocalTimeout | LegacyUnknown

  datatype Fulfillment = NotStarted | Fulfilling | Fulfilled | FulfillmentManual

  /** `queued` when a COMPLETED webhook event is stored for it. */
  datatype Txn = Txn(
    payment: PaymentId, terms: Terms, status: TxnStatus, reason: Option<CancelReason>,
    fulfillment: Fulfillment, fulfillmentUntil: Option<int>, completedAt: Option<int>, queued: bool)

  /** Everything `mark_processing` writes. */
  datatype Plan = Plan(
    yookassa: bool, terms: Terms, request: Request, owner: Option<int>, mode: Mode, replayFor: Option<nat>)

  /** What the payment use case can plan: a free payment is local, a YooKassa one can be replayed. */
  predicate PlanOk(plan: Plan) {
    && (plan.terms.free <==> plan.mode == LocalMode)
    && (plan.mode == LocalMode <==> plan.request.LocalRequest?)
    && (plan.mode == YookassaReplay ==> plan.yookassa && plan.owner.Some? && plan.replayFor == Some(REPLAY_WINDOW))
    && (plan.yookassa ==> plan.mode != ManualMode)
  }

  // ---------------------------------------------------------------- the original request

  function NewOp(id: int, hash: string, key: ProviderKey, now: int): Op {
    Op(id, hash, Claimed, key, None, Some(now + CLAIM_LEASE), None, false, None, None, None,
       None, ManualMode, None, None, None, 0, None)
  }

  predicate LeaseOver(op: Op, now: int) {
    op.leaseUntil.Some? && op.leaseUntil.value <= now
  }

  function ReclaimClaimed(op: Op, now: int): Option<Op> {
    if op.status == Claimed && LeaseOver(op, now) then Some(op.(leaseUntil := Some(now + CLAIM_LEASE))) else None
  }

  function MarkProcessing(op: Op, plan: Plan, now: int): Option<Op> {
    if op.status != Claimed then None
    else Some(op.(
      status := Processing, leaseUntil := Some(now + PROCESSING_LEASE), yookassa := plan.yookassa,
      terms := Some(plan.terms), request := Some(plan.request), owner := plan.owner, mode := plan.mode,
      replayUntil := if plan.replayFor.Some? then Some(now + plan.replayFor.value) else None))
  }

  function CheckpointProviderResult(op: Op, result: ProviderResult): Option<Op> {
    if op.status == Processing && (op.result.None? || op.result == Some(result)) then Some(op.(result := Some(result)))
    else None
  }

  function LinkTransaction(op: Op, transaction: int): Option<Op> {
    if op.status == Processing && (op.transaction.None? || op.transaction == Some(transaction))
    then Some(op.(transaction := Some(transaction)))
    else None
  }

  predicate ProvesFulfillment(txn: Txn) {
    txn.fulfillment == Fulfilled && txn.completedAt.Some?
  }

  predicate NeedsProof(op: Op, txn: Txn) {
    op.mode == LocalMode || txn.terms.free
  }

  function Complete(op: Op, txns: map<int, Txn>, response: Response): Option<Op> {
    var linked := op.transaction.Some? && op.transaction.value in txns;
    if (op.status == Processing && op.transaction.Some?
        && ((op.mode != LocalMode && !(linked && txns[op.transaction.value].terms.free))
            || (linked && ProvesFulfillment(txns[op.transaction.value]))))
       || (op.status == Succeeded && op.response == Some(response))
    then Some(op.(status := Succeeded, response := Some(response), leaseUntil := None))
    else None
  }

  function MarkUnknown(op: Op): Option<Op> {
    if op.status == Processing then Some(op.(status := Unknown, leaseUntil := None)) else None
  }

  function ExpireProcessing(op: Op, now: int): Option<Op> {
    if op.status == Processing && LeaseOver(op, now) then Some(op.(status := Unknown, leaseUntil := None)) else None
  }

  // ---------------------------------------------------------------- reconciliation

  function ClaimReconciliation(op: Op, token: Token, now: int): Option<Op> {
    if op.status == Unknown && (op.nextAttempt.None? || op.nextAttempt.value <= now) && op.token.None?
    then Some(op.(token := Some(token), tokenUntil := Some(now + RECONCILIATION_LEASE), attempts := op.attempts + 1))
    else None
  }

  function MarkExpiredReplayManual(op: Op, now: int): Option<Op> {
    if op.status == Unknown && op.mode == YookassaReplay && op.result.None?
       && op.replayUntil.Some? && op.replayUntil.value <= now && op.token.None?
    then Some(op.(status := ManualRequired, nextAttempt := None))
    else None
  }

  function MarkExhaustedManual(op: Op): Option<Op> {
    if op.status == Unknown && op.token.None? && op.attempts >= MAX_RECONCILIATION_ATTEMPTS
    then Some(op.(status := ManualRequired, nextAttempt := None))
    else None
  }

  function ExpireReconciliation(op: Op, now: int): Option<Op> {
    if op.status == Unknown && op.token.Some? && op.tokenUntil.Some? && op.tokenUntil.value <= now
    then Some(op.(status := ManualRequired, nextAttempt := None))
    else None
  }

  /** The fence of every update an attempt makes: status, its own token, and a lease that has not ended. */
  predicate Owned(op: Op, token: Token, now: int) {
    && (op.status == Unknown || op.status == ManualRequired)
    && op.token == Some(token)
    && op.tokenUntil.Some? && now < op.tokenUntil.value
  }

  function ReleaseReconciliation(op: Op, token: Token, retryAfter: nat, now: int): Option<Op> {
    if Owned(op, token, now)
    then Some(op.(token := None, tokenUntil := None, nextAttempt := Some(now + retryAfter)))
    else None
  }

  function CheckpointReconciliation(op: Op, token: Token, result: ProviderResult, now: int): Option<Op> {
    if Owned(op, token, now) && (op.result.None? || op.result == Some(result))
    then Some(op.(result := Some(result)))
    else None
  }

  function MarkManualRequired(op: Op, token: Token, now: int): Option<Op> {
    if Owned(op, token, now)
    then Some(op.(status := ManualRequired, token := None, tokenUntil := None, nextAttempt := None))
    else None
  }

  function LinkPendingFulfillment(op: Op, token: Token, transaction: int, result: ProviderResult, now: int): Option<Op> {
    if Owned(op, token, now) && op.transaction.None?
    then Some(op.(transaction := Some(transaction), result := Some(result), token := None, tokenUntil := None,
                  nextAttempt := Some(now + MIN_RETRY_SECONDS)))
    else None
  }

  function CompleteReconciliation(
    op: Op, token: Token, transaction: int, response: Response, result: Option<ProviderResult>, now: int): Option<Op>
  {
    if Owned(op, token, now) && (op.transaction.None? || op.transaction == Some(transaction))
    then Some(op.(status := Succeeded, transaction := Some(transaction), response := Some(response), leaseUntil := None,
                  token := None, tokenUntil := None, nextAttempt := None,
                  result := if result.Some? then result else op.result))
    else None
  }

  /** The delay `_release` asks for after its n-th attempt. */
  function RetryDelay(attempts: nat): (delay: nat)
    ensures MIN_RETRY_SECONDS <= delay <= MAX_RETRY_SECONDS
  {
    Min(MAX_RETRY_SECONDS, MIN_RETRY_SECONDS * Pow2(Min(attempts, 6)))
  }

  // ---------------------------------------------------------------- the local transaction

  datatype TxnEvent =
    | SetStatus(status: TxnStatus, reason: Option<CancelReason>)
    | BeginFulfillment(until: int)
    | CompleteFulfillment
    | FulfillmentNeedsReview
    | ReleaseFulfillment
    | ExpireFulfillment

  /**
   What other parts of the system do to a transaction. They may set its status as they like; its
   fulfillment moves only by these guarded updates.
   */
  function Happens(txn: Txn, event: TxnEvent, now: int): Txn {
    match event
    case SetStatus(status, reason) => txn.(status := status, reason := reason)
    case BeginFulfillment(until) =>
      if txn.fulfillment != NotStarted then txn
      else txn.(status := TxnCompleted, reason := None, fulfillment := Fulfilling, fulfillmentUntil := Some(until),
                completedAt := None)
    case CompleteFulfillment =>
      if txn.status == TxnCompleted && txn.fulfillment == Fulfilling
         && txn.fulfillmentUntil.Some? && now < txn.fulfillmentUntil.value
      then txn.(fulfillment := Fulfilled, fulfillmentUntil := None, completedAt := Some(now))
      else txn
    case FulfillmentNeedsReview =>
      if txn.fulfillment == Fulfilling || txn.fulfillment == FulfillmentManual
      then txn.(fulfillment := FulfillmentManual, fulfillmentUntil := None)
      else txn
    case ReleaseFulfillment =>
      if txn.fulfillment == Fulfilling then txn.(fulfillment := NotStarted, fulfillmentUntil := None) else txn
    case ExpireFulfillment => if Expirable(txn, now) then Expired(txn) else txn
  }

  predicate Expirable(txn: Txn, now: int) {
    (txn.status == TxnCompleted || txn.status == TxnRefunded) && txn.fulfillment == Fulfilling
    && txn.fulfillmentUntil.Some? && txn.fulfillmentUntil.value <= now
  }

  function Expired(txn: Txn): Txn {
    txn.(fulfillment := FulfillmentManual, fulfillmentUntil := None)
  }

  function CancelByProvider(txn: Txn): Option<Txn> {
    if (txn.status == TxnPending || txn.status == TxnCanceled) && txn.fulfillment == NotStarted
    then Some(txn.(status := TxnCanceled, reason := Some(ByProvider)))
    else None
  }

  function NewTxn(payment: PaymentId, terms: Terms, status: TxnStatus, reason: Option<CancelReason>): Txn {
    Txn(payment, terms, status, reason, NotStarted, None, None, false)
  }

  function BuildResponse(txn: Txn, url: Option<string>): Response {
    Response(txn.payment, url, txn.status)
  }
}
