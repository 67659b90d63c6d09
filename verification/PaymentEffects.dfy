/** What each action of the payment saga does to the stored row, told by the row alone, and what follows for later requests. */
module PaymentEffects {
  import opened Common
  import opened PaymentStore
  import opened PaymentSaga
  import opened PaymentSafety
  import opened PaymentTheorems

  predicate Lapsed(until: Option<int>, now: int) {
    until.Some? && until.value <= now
  }

  // ---------------------------------------------------------------- start

  /** What a request is told, as the stored row decides. */
  predicate Answers(s: Saga, hash: string, key: ProviderKey, answer: StartResult) {
    match s.op
    case None => answer == Leads(s.nextId, key)
    case Some(op) =>
      && (answer == Conflict <==> op.hash != hash)
      && (answer.Leads? <==> op.hash == hash && op.status == Claimed && Lapsed(op.leaseUntil, s.clock))
      && (answer.Leads? ==> answer == Leads(op.id, op.key))
      && (answer.Replay? <==> op.hash == hash && op.status == Succeeded && op.response.Some?)
      && (answer.Replay? ==> Some(answer.response) == op.response)
      && (answer == OutcomeUnknown <==>
            op.hash == hash && (op.status == Unknown || op.status == ManualRequired
                                || (op.status == Processing && Lapsed(op.leaseUntil, s.clock))
                                || (op.status == Succeeded && op.response.None?)))
      && (answer == InProgress <==>
            op.hash == hash && (op.status == Claimed || op.status == Processing) && !Lapsed(op.leaseUntil, s.clock))
  }

  lemma StartAnswers(s: Saga, hash: string, key: ProviderKey)
    ensures Answers(s, hash, key, StartRow(s, hash, key).1)
  {
  }

  /** What `start` leaves: a new claim, a renewed one, a run whose handler died, or the row as it was. */
  lemma StartIff(s: Saga, caller: int, hash: string, key: ProviderKey)
    requires caller !in s.callers
    ensures var s', answer := Step(s, Start(caller, hash, key)), StartRow(s, hash, key).1;
            && s' == s.(op := s'.op, nextId := s'.nextId, callers := s'.callers) && s'.op.Some?
            && s'.callers == s.callers[caller := if answer.Leads? then Leader(answer.op, answer.key, s.clock + 5 * 60) else Finished]
            && match s.op
               case None =>
                 && s'.nextId == s.nextId + 1
                 && s'.op == Some(Op(s.nextId, hash, Claimed, key, None, Some(s.clock + 5 * 60), None, false, None, None, None,
                                     None, ManualMode, None, None, None, 0, None))
               case Some(op) =>
                 && s'.nextId == s.nextId
                 && (s'.op != s.op ==> op.hash == hash && Lapsed(op.leaseUntil, s.clock))
                 && (op.hash == hash && Lapsed(op.leaseUntil, s.clock) ==>
                       match op.status
                       case Claimed => s'.op == Some(op.(leaseUntil := Some(s.clock + 5 * 60)))
                       case Processing => s'.op == Some(op.(status := Unknown, leaseUntil := None))
                       case _ => s'.op == s.op)
  {
  }

  /** Once the operation has succeeded, every later request with its hash is replayed the response that was stored then. */
  lemma RepliesForEver(s: Saga, actions: seq<Action>, hash: string, key: ProviderKey)
    requires SagaOk(s) && s.op.Some? && s.op.value.status == Succeeded && s.op.value.hash == hash
    ensures s.op.value.response.Some?
    ensures StartRow(Run(s, actions), hash, key).1 == Replay(s.op.value.response.value)
  {
    hide Run, CountOk, TxnOk, CallerOk, AttemptOk, CallOk;
    SettledIsFinal(s, actions);
    StartAnswers(Run(s, actions), hash, key);
  }

  // ---------------------------------------------------------------- the request handler

  /** The boundary is crossed on the leader's own CLAIMED row, and the plan is written with it. */
  lemma CrossIff(s: Saga, caller: int, plan: Plan)
    requires InPhase(s, Cross(caller, plan))
    ensures var s', me := Step(s, Cross(caller, plan)), s.callers[caller];
            if s.op.Some? && s.op.value.id == me.op && s.op.value.status == Claimed then
              && s' == s.(op := s'.op, callers := s.callers[caller := Crossed(me.op, me.key, plan)], crossings := s.crossings + [me.op])
              && s'.op == Some(s.op.value.(
                   status := Processing, leaseUntil := Some(s.clock + 30 * 60), yookassa := plan.yookassa, terms := Some(plan.terms),
                   request := Some(plan.request), owner := plan.owner, mode := plan.mode,
                   replayUntil := if plan.replayFor.None? then None else Some(s.clock + plan.replayFor.value)))
            else s' == s.(callers := s.callers[caller := Finished])
  {
  }

  /** One create call under the stored key, or, for a free payment, none. */
  lemma ChargeIff(s: Saga, caller: int, result: ProviderResult)
    requires InPhase(s, Charge(caller, result)) && PlanOk(s.callers[caller].plan)
    ensures var s', me := Step(s, Charge(caller, result)), s.callers[caller];
            if me.plan.terms.free then
              && s' == s.(callers := s'.callers) && me.plan.request.LocalRequest?
              && s'.callers == s.callers[caller := Charged(me.op, me.key, me.plan, ProviderResult(me.plan.request.payment, None, Local))]
            else
              s' == s.(callers := s.callers[caller := Charged(me.op, me.key, me.plan, result)],
                       calls := s.calls + [Call(me.op, me.key, ByCaller(caller))])
  {
  }

  /** The result is checkpointed on the caller's own PROCESSING row, unless another one is there. */
  lemma RecordIff(s: Saga, caller: int)
    requires InPhase(s, Record(caller))
    ensures var s', me := Step(s, Record(caller)), s.callers[caller];
            if s.op.Some? && s.op.value.id == me.op && s.op.value.status == Processing
               && (s.op.value.result == None || s.op.value.result == Some(me.result)) then
              s' == s.(op := Some(s.op.value.(result := Some(me.result))),
                       callers := s.callers[caller := Recorded(me.op, me.key, me.plan, me.result)])
            else s' == s
  {
  }

  /** What the handler's last block demands of the row and the transactions. */
  predicate Committable(s: Saga, c: Caller)
    requires c.Recorded?
  {
    && s.op.Some? && s.op.value.id == c.op && s.op.value.status == Processing && s.op.value.transaction.None?
    && (c.plan.terms.free || (c.result.status != Paid && c.result.status != Canceled))
    && !PaymentTaken(s, c.result.payment)
  }

  /** The transaction is created and linked, and a payment that is not free is completed with its response; or nothing happens. */
  lemma CommitIff(s: Saga, caller: int)
    requires SagaOk(s) && InPhase(s, Commit(caller)) && PlanOk(s.callers[caller].plan)
    ensures var s', me := Step(s, Commit(caller)), s.callers[caller];
            if Committable(s, me) then
              && s' == s.(op := s'.op, txns := s'.txns, nextTxn := s.nextTxn + 1, callers := s.callers[caller := Finished])
              && s'.txns == s.txns[s.nextTxn :=
                   Txn(me.result.payment, me.plan.terms, TxnPending, None, NotStarted, None, None, false)]
              && s'.op == Some(
                   if me.plan.terms.free then s.op.value.(transaction := Some(s.nextTxn))
                   else s.op.value.(status := Succeeded, transaction := Some(s.nextTxn), leaseUntil := None,
                                    response := Some(Response(me.result.payment, me.result.url, TxnPending))))
            else s' == s
  {
    hide RowOk, CountOk, AttemptOk, CallOk, PaymentTaken;
    assert CallerOk(s.callers[caller], s.op, s.nextId);
    if s.op.Some? && s.op.value.transaction.Some? {
      assert TxnOk(s);
    }
  }

  /** Giving up: a handler past the boundary leaves UNKNOWN, one before it deletes its claim. */
  lemma StopIff(s: Saga, caller: int)
    requires InPhase(s, Stop(caller)) && !s.callers[caller].Finished?
    ensures var s', me := Step(s, Stop(caller)), s.callers[caller];
            && s' == s.(op := s'.op, callers := s.callers[caller := Finished])
            && (if s.op.Some? && s.op.value.id == me.op && me.Leader? && s.op.value.status == Claimed then s'.op == None
                else if s.op.Some? && s.op.value.id == me.op && !me.Leader? && s.op.value.status == Processing then
                  s'.op == Some(s.op.value.(status := Unknown, leaseUntil := None))
                else s'.op == s.op)
  {
  }

  // ---------------------------------------------------------------- guards that hold whatever calls them

  /** A claim is renewed by its guard alone: CLAIMED, and its lease over. */
  lemma ReclaimIff(op: Op, now: int)
    ensures ReclaimClaimed(op, now)
            == if op.status == Claimed && Lapsed(op.leaseUntil, now) then Some(op.(leaseUntil := Some(now + 5 * 60))) else None
  {
  }

  /** A link is set once, and setting it again to the same transaction changes nothing. */
  lemma LinkIff(op: Op, transaction: int)
    ensures LinkTransaction(op, transaction).Some? <==>
              op.status == Processing && op.transaction in [None, Some(transaction)]
    ensures LinkTransaction(op, transaction).Some? ==>
              && LinkTransaction(op, transaction) == Some(op.(transaction := Some(transaction)))
              && LinkTransaction(LinkTransaction(op, transaction).value, transaction) == LinkTransaction(op, transaction)
  {
  }

  /**
   Even a caller that plans otherwise cannot complete a local operation, or one whose linked transaction is free, before
   that transaction is fulfilled; completing again with the same response is allowed, and with another it is not.
   */
  lemma CompleteIff(op: Op, txns: map<int, Txn>, response: Response)
    ensures Complete(op, txns, response).Some? <==>
              || (op.status == Succeeded && op.response == Some(response))
              || (&& op.status == Processing && op.transaction.Some?
                  && var linked := op.transaction.value in txns;
                     if op.mode == LocalMode || (linked && txns[op.transaction.value].terms.free)
                     then linked && txns[op.transaction.value].fulfillment == Fulfilled && txns[op.transaction.value].completedAt.Some?
                     else true)
    ensures Complete(op, txns, response).Some? ==>
              Complete(op, txns, response) == Some(op.(status := Succeeded, response := Some(response), leaseUntil := None))
  {
  }

  // ---------------------------------------------------------------- checking and claiming

  /** Nobody but reconciliation works on it: its outcome is unknown, or its handler outlived its lease. */
  predicate Adrift(op: Op, now: int) {
    op.status == Unknown || (op.status == Processing && Lapsed(op.leaseUntil, now))
  }

  /** The provider would no longer recognise the key of a create call that is still to be made. */
  predicate PastReplay(op: Op, now: int) {
    op.mode == YookassaReplay && op.result.None? && Lapsed(op.replayUntil, now)
  }

  /** Not claimed, and not to be claimed again. */
  predicate OutOfTries(op: Op, now: int) {
    op.token.None? && (op.attempts >= 12 || PastReplay(op, now))
  }

  /** What the check leaves of a row: a lapsed claim is deleted, a row out of tries is manual, any other waits as it is. */
  predicate CheckedRow(before: Op, after: Option<Op>, now: int) {
    if before.status == Claimed && Lapsed(before.leaseUntil, now) then after == None
    else if !Adrift(before, now) then after == Some(before)
    else
      var adrift := before.(status := Unknown, leaseUntil := if before.status == Processing then None else before.leaseUntil);
      after == Some(if OutOfTries(before, now) then adrift.(status := ManualRequired, nextAttempt := None) else adrift)
  }

  /** The check lets a row be claimed if and only if it is adrift and not out of tries. */
  lemma CheckIff(s: Saga, t: Token)
    requires t !in s.attempts
    ensures var s' := Step(s, Check(t));
            && s' == s.(op := s'.op, attempts := s'.attempts)
            && match s.op
               case None => s'.op == None && s'.attempts == s.attempts[t := Over]
               case Some(op) =>
                 && CheckedRow(op, s'.op, s.clock)
                 && s'.attempts == s.attempts[t := if Adrift(op, s.clock) && !OutOfTries(op, s.clock) then Checked(op.id, s.clock) else Over]
  {
  }

  predicate ClaimableNow(op: Op, now: int) {
    op.status == Unknown && op.token.None? && (op.nextAttempt.None? || op.nextAttempt.value <= now)
  }

  /** The claim wins if and only if the row it checked is unclaimed and due; a lost one retires a row that is out of tries. */
  lemma ClaimIff(s: Saga, t: Token)
    requires InPhase(s, Claim(t))
    ensures var s', id := Step(s, Claim(t)), s.attempts[t].op;
            && s' == s.(op := s'.op, attempts := s'.attempts)
            && (if s.op.Some? && s.op.value.id == id && ClaimableNow(s.op.value, s.clock) then
                  && s'.attempts == s.attempts[t := Holder(id)]
                  && s'.op == Some(s.op.value.(token := Some(t), tokenUntil := Some(s.clock + 5 * 60), attempts := s.op.value.attempts + 1))
                else
                  && s'.attempts == s.attempts[t := Over]
                  && if s.op.Some? && s.op.value.id == id && s.op.value.status == Unknown && OutOfTries(s.op.value, s.clock)
                     then s'.op == Some(s.op.value.(status := ManualRequired, nextAttempt := None)) else s'.op == s.op)
  {
  }

  /** A claimed attempt reads the row as it is. */
  lemma LoadIff(s: Saga, t: Token)
    requires SagaOk(s) && InPhase(s, Load(t))
    ensures s.op.Some? && Step(s, Load(t)) == s.(attempts := s.attempts[t := Loaded(s.op.value)])
  {
    assert AttemptOk(t, s.attempts[t], s.op, s.nextId, s.clock);
  }

  // ---------------------------------------------------------------- obtaining a result

  /** The create call is repeated only for what is stored whole, neither linked nor answered, and replayable. */
  lemma RecreateIff(s: Saga, t: Token, result: ProviderResult)
    requires InPhase(s, Recreate(t, result))
    ensures var s', record := Step(s, Recreate(t, result)), s.attempts[t].record;
            if && record.transaction.None? && record.result.None? && record.mode == YookassaReplay && record.yookassa
               && record.owner.Some? && record.request == Some(GatewayRequest(true)) then
              s' == s.(attempts := s.attempts[t := Obtained(record, result)],
                       calls := s.calls + [Call(record.id, record.key, ByAttempt(t, record))])
            else s' == s.(attempts := s.attempts[t := Failing(record, Permanent)])
  {
  }

  /** Without a call: the checkpointed result, or the local payment of the stored request. */
  lemma UseStoredIff(s: Saga, t: Token)
    requires InPhase(s, UseStored(t))
    ensures var s', record := Step(s, UseStored(t)), s.attempts[t].record;
            && record.transaction.None? && (record.mode == LocalMode || record.result.Some?)
            && s' == s.(attempts := s.attempts[t :=
                 match record.result
                 case Some(result) => Ready(record, result)
                 case None =>
                   if record.request.Some? && record.request.value.LocalRequest?
                   then Obtained(record, ProviderResult(record.request.value.payment, None, Local)) else Failing(record, Permanent)])
  {
  }

  /** The fence of an attempt: the row bears its token, and the lease of five minutes has not ended. */
  predicate Holds(s: Saga, t: Token, record: Op) {
    && s.op.Some? && s.op.value.id == record.id && (s.op.value.status == Unknown || s.op.value.status == ManualRequired)
    && s.op.value.token == Some(t) && s.op.value.tokenUntil.Some? && s.op.value.tokenUntil.value > s.clock
  }

  lemma CheckpointIff(s: Saga, t: Token)
    requires InPhase(s, Checkpoint(t))
    ensures var s', record, result := Step(s, Checkpoint(t)), s.attempts[t].record, s.attempts[t].result;
            if Holds(s, t, record) && (s.op.value.result == None || s.op.value.result == Some(result)) then
              s' == s.(op := Some(s.op.value.(result := Some(result))), attempts := s.attempts[t := Ready(record, result)])
            else s' == s.(attempts := s.attempts[t := Failing(record, Transient)])
  {
  }

  // ---------------------------------------------------------------- completing

  /** An attempt past reading its row works on the row that is there, which bears its token. */
  lemma WorksOnTheRow(s: Saga, t: Token)
    requires SagaOk(s) && t in s.attempts && Active(s.attempts[t]) && !s.attempts[t].Holder?
    ensures s.op.Some? && s.op.value.token == Some(t) && RecordOk(s.attempts[t].record, s.op.value)
    ensures s.op.value.terms.Some? && (s.op.value.terms.value.free <==> s.op.value.mode == LocalMode)
    ensures s.attempts[t].Ready? ==> s.op.value.result.Some? && s.op.value.result.value.payment == s.attempts[t].result.payment
    ensures if s.op.value.transaction.None? then s.txns == map[]
            else s.txns.Keys == {s.op.value.transaction.value} && s.txns[s.op.value.transaction.value].terms == s.op.value.terms.value
                 && s.op.value.result.Some? && s.txns[s.op.value.transaction.value].payment == s.op.value.result.value.payment
  {
    hide CallOk, CallerOk, CountOk;
    assert AttemptOk(t, s.attempts[t], s.op, s.nextId, s.clock);
  }

  /** The transaction of the checkpointed payment is the linked one, or a new one. */
  lemma EnsureIff(s: Saga, op: Op, payment: PaymentId, status: TxnStatus, reason: Option<CancelReason>)
    requires SagaOk(s) && s.op == Some(op) && op.result.Some? && op.result.value.payment == payment && op.terms.Some?
    ensures EnsureTransaction(s, op, payment, status, reason)
            == if !op.terms.value.readable then NoTransaction
               else if op.transaction.Some? then Ensured(s.txns, op.transaction.value)
               else Ensured(map[s.nextTxn := NewTxn(payment, op.terms.value, status, reason)], s.nextTxn)
  {
    hide RowOk, CountOk, CallerOk, AttemptOk, CallOk;
    assert TxnOk(s);
    if op.transaction.Some? {
      assert PaymentTaken(s, payment);
    } else {
      assert s.txns == map[];
    }
  }

  predicate Fails(s: Saga, s': Saga, t: Token, record: Op, failure: Failure) {
    s' == s.(attempts := s.attempts[t := Failing(record, failure)])
  }

  /** A local payment is given its transaction, queued and linked, and the row is let go for five seconds; or nothing is written. */
  lemma LinkLocalIff(s: Saga, t: Token)
    requires SagaOk(s) && InPhase(s, LinkLocal(t))
    ensures s.op.Some? && s.op.value.terms.Some?
    ensures var s', record, result := Step(s, LinkLocal(t)), s.attempts[t].record, s.attempts[t].result;
            var op := s.op.value;
            if !op.terms.value.readable then Fails(s, s', t, record, Permanent)
            else if !Holds(s, t, record) || op.transaction.Some? then Fails(s, s', t, record, Transient)
            else
              s' == s.(op := Some(op.(transaction := Some(s.nextTxn), result := Some(result), token := None, tokenUntil := None,
                                      nextAttempt := Some(s.clock + 5))),
                       txns := map[s.nextTxn := Txn(result.payment, op.terms.value, TxnPending, None, NotStarted, None, None, true)],
                       nextTxn := s.nextTxn + 1, attempts := s.attempts[t := Over])
  {
    hide SagaOk, EnsureTransaction, PaymentTaken, RecordOk;
    WorksOnTheRow(s, t);
    SameMode(s, t);
    NextIsNew(s);
    EnsureIff(s, s.op.value, s.attempts[t].result.payment, TxnPending, None);
  }

  /** A success event is queued for a transaction that is still open, and conflicts with one that failed or was canceled otherwise. */
  predicate StillOpen(txn: Txn) {
    txn.status == TxnPending || (txn.status == TxnCanceled && txn.reason == Some(LocalTimeout))
  }

  predicate Dead(txn: Txn) {
    txn.status == TxnFailed || (txn.status == TxnCanceled && txn.reason != Some(LocalTimeout))
  }

  /** The row is completed, with the response for its transaction. */
  predicate Completes(before: Op, after: Op, transaction: int, response: Response, result: Option<ProviderResult>) {
    after == before.(status := Succeeded, transaction := Some(transaction), response := Some(response), leaseUntil := None,
                     token := None, tokenUntil := None, nextAttempt := None, result := result)
  }

  /**
   A linked row is completed if its transaction needs no proof of fulfillment or has it. Otherwise the fulfillment is
   waited for, and queued if it can still begin, or the failure is permanent.
   */
  lemma CompleteLinkedIff(s: Saga, t: Token)
    requires SagaOk(s) && InPhase(s, CompleteLinked(t))
    ensures s.op.Some? && s.op.value.transaction.Some? && s.op.value.result.Some? && s.op.value.transaction.value in s.txns
    ensures var s', record := Step(s, CompleteLinked(t)), s.attempts[t].record;
            var op, id := s.op.value, s.op.value.transaction.value;
            var txn, paid := s.txns[id], op.result.value.status == Paid;
            var noted := txn.(queued := txn.queued || (paid && StillOpen(txn)));
            var unproven := op.mode == LocalMode && !(txn.fulfillment == Fulfilled && txn.completedAt.Some?);
            if paid && Dead(txn) then Fails(s, s', t, record, Permanent)
            else if unproven && txn.fulfillment == FulfillmentManual then Fails(s, s', t, record, Permanent)
            else if unproven && txn.fulfillment == Fulfilling then Fails(s.(txns := s.txns[id := noted]), s', t, record, Transient)
            else if unproven && (txn.status == TxnRefunded || Dead(txn)) then Fails(s, s', t, record, Permanent)
            else if unproven then Fails(s.(txns := s.txns[id := txn.(queued := true)]), s', t, record, Transient)
            else if !Holds(s, t, record) then Fails(s, s', t, record, Transient)
            else
              && s' == s.(op := s'.op, txns := s.txns[id := noted], attempts := s.attempts[t := Over]) && s'.op.Some?
              && Completes(op, s'.op.value, id, Response(txn.payment, op.result.value.url, txn.status), op.result)
  {
    hide SagaOk;
    WorksOnTheRow(s, t);
    NextIsNew(s);
  }

  lemma NextIsNew(s: Saga)
    requires SagaOk(s)
    ensures s.nextTxn !in s.txns
  {
    hide RowOk, CountOk, CallerOk, AttemptOk, CallOk;
  }

  /** What the gateway says of the checkpointed payment now; other gateways' results stand as they are. */
  function ResultNow(record: Op, stored: ProviderResult, url: Option<string>, status: ProviderStatus): ProviderResult {
    if !record.yookassa then stored
    else ProviderResult(stored.payment, match url case Some(_) => url case None => stored.url, status)
  }

  /** The transaction there is can take the provider's verdict. */
  predicate Takes(txn: Txn, verdict: ProviderStatus) {
    && (verdict == Canceled ==>
          || (txn.status == TxnCanceled && txn.reason == Some(ByProvider))
          || ((txn.status == TxnPending || txn.status == TxnCanceled) && txn.fulfillment == NotStarted))
    && (verdict == Paid ==> !Dead(txn))
  }

  /** The transaction with the verdict taken. */
  function Taken(was: Option<Txn>, verdict: ProviderStatus, payment: PaymentId, terms: Terms): Txn {
    match was
    case None =>
      Txn(payment, terms, if verdict == Canceled then TxnCanceled else TxnPending,
          if verdict == Canceled then Some(ByProvider) else None, NotStarted, None, None, verdict == Paid)
    case Some(txn) =>
      if verdict == Canceled then txn.(status := TxnCanceled, reason := Some(ByProvider))
      else txn.(queued := txn.queued || (verdict == Paid && StillOpen(txn)))
  }

  /**
   A checkpointed gateway result completes the row, with a transaction that has taken the provider's verdict; or the
   attempt fails, for good if the recovery data or the transaction stand against it, and nothing is written.
   */
  lemma CompleteResultIff(s: Saga, t: Token, url: Option<string>, status: ProviderStatus)
    requires SagaOk(s) && InPhase(s, CompleteResult(t, url, status))
    ensures s.op.Some? && s.op.value.terms.Some? && (s.op.value.transaction.Some? ==> s.op.value.transaction.value in s.txns)
    ensures var s', record := Step(s, CompleteResult(t, url, status)), s.attempts[t].record;
            var op, result := s.op.value, ResultNow(record, s.attempts[t].result, url, status);
            var was := if op.transaction.Some? then Some(s.txns[op.transaction.value]) else None;
            var id := if op.transaction.Some? then op.transaction.value else s.nextTxn;
            var taken := Taken(was, result.status, result.payment, op.terms.value);
            if || (record.yookassa && (status == NoStatus || status == Local || record.owner.None?
                                       || record.request != Some(GatewayRequest(true))))
               || !op.terms.value.readable || (was.Some? && !Takes(was.value, result.status))
            then Fails(s, s', t, record, Permanent)
            else if !Holds(s, t, record) then Fails(s, s', t, record, Transient)
            else
              && s' == s.(op := s'.op, txns := map[id := taken], nextTxn := if was.None? then s.nextTxn + 1 else s.nextTxn,
                          attempts := s.attempts[t := Over])
              && s'.op.Some? && Completes(op, s'.op.value, id, Response(taken.payment, result.url, taken.status), Some(result))
  {
    hide SagaOk, Step, DoCompleteResult, EnsureRecovered, RecordOk, CompleteReconciliation, Holds, Completes, BuildResponse, Verified,
         Taken, Takes, Dead, StillOpen, ResultNow;
    WorksOnTheRow(s, t);
    SameMode(s, t);
    CompleteResultSteps(s, t, url, status);
    var Ready(record, stored) := s.attempts[t];
    var op, result := s.op.value, ResultNow(record, stored, url, status);
    KeepsPayment(record, stored, url, status);
    VerdictIff(s, op, result);
    BlockIff(s, t, url, status);
    NextIsNew(s);
    var was := if op.transaction.Some? then Some(s.txns[op.transaction.value]) else None;
    var id := if op.transaction.Some? then op.transaction.value else s.nextTxn;
    var taken := Taken(was, result.status, result.payment, op.terms.value);
    SameResponse(taken, result.url);
    CompletesIff(s, t, record, id, Response(taken.payment, result.url, taken.status), result);
  }

  /** The block for a payment that needs no proof of fulfillment, as no gateway payment of a reachable state does. */
  lemma BlockIff(s: Saga, t: Token, url: Option<string>, status: ProviderStatus)
    requires InPhase(s, CompleteResult(t, url, status))
    requires s.op.Some? && s.op.value.id == s.attempts[t].record.id && s.op.value.token == Some(t) && s.op.value.mode != LocalMode
    ensures var Ready(record, stored) := s.attempts[t];
            var op, result := s.op.value, ResultNow(record, stored, url, status);
            var r := EnsureRecovered(s, op, result);
            var s' := DoCompleteResult(s, t, url, status);
            if || (record.yookassa && (status == NoStatus || status == Local || record.owner.None?
                                       || record.request != Some(GatewayRequest(true))))
               || r.NoTransaction?
            then Fails(s, s', t, record, Permanent)
            else
              var txn := r.txns[r.id];
              !txn.terms.free ==>
                if result.status == Paid && Dead(txn) then Fails(s, s', t, record, Permanent)
                else s' == Committed(s, t, record,
                                     CompleteReconciliation(op, t, r.id, BuildResponse(txn, result.url), Some(result), s.clock),
                                     r.txns[r.id := txn.(queued := txn.queued || (result.status == Paid && StillOpen(txn)))])
  {
    hide EnsureRecovered, CompleteReconciliation, LinkPendingFulfillment, BuildResponse, Committed, SuccessEvent, Queued, Dead,
         StillOpen, Verified, ResultNow;
    var Ready(record, stored) := s.attempts[t];
    SameResult(record, stored, url, status);
    var r := EnsureRecovered(s, s.op.value, ResultNow(record, stored, url, status));
    if r.Ensured? {
      EventIff(r.txns[r.id]);
      assert r.txns[r.id := r.txns[r.id]] == r.txns;
    }
  }

  lemma KeepsPayment(record: Op, stored: ProviderResult, url: Option<string>, status: ProviderStatus)
    ensures ResultNow(record, stored, url, status).payment == stored.payment
  {
  }

  /** The transaction that recovery finds or makes has taken the verdict, once its success is queued; or it cannot. */
  lemma VerdictIff(s: Saga, op: Op, result: ProviderResult)
    requires SagaOk(s) && s.op == Some(op) && op.result.Some? && op.result.value.payment == result.payment && op.terms.Some?
    requires op.transaction.Some? ==>
               && op.transaction.value in s.txns && s.txns.Keys == {op.transaction.value}
               && s.txns[op.transaction.value].terms == op.terms.value
    ensures var r := EnsureRecovered(s, op, result);
            var was := if op.transaction.Some? then Some(s.txns[op.transaction.value]) else None;
            var id := if op.transaction.Some? then op.transaction.value else s.nextTxn;
            var taken := Taken(was, result.status, result.payment, op.terms.value);
            && (r.NoTransaction? || (result.status == Paid && Dead(r.txns[r.id])) <==>
                  !op.terms.value.readable || (was.Some? && !Takes(was.value, result.status)))
            && (r.Ensured? ==> r.txns[r.id].terms == op.terms.value)
            && (r.Ensured? && !(result.status == Paid && Dead(r.txns[r.id])) ==>
                  var txn := r.txns[r.id];
                  && r.id == id && taken == txn.(queued := taken.queued)
                  && r.txns[r.id := txn.(queued := txn.queued || (result.status == Paid && StillOpen(txn)))] == map[id := taken])
  {
    hide SagaOk, EnsureRecovered;
    RecoveredIff(s, op, result);
  }

  lemma SameResult(record: Op, stored: ProviderResult, url: Option<string>, status: ProviderStatus)
    ensures ResultNow(record, stored, url, status) == Verified(record, stored, url, status)
  {
  }

  lemma EventIff(txn: Txn)
    ensures SuccessEvent(txn) == Conflicting <==> Dead(txn)
    ensures Queued(txn, SuccessEvent(txn)) == txn.(queued := txn.queued || StillOpen(txn))
    ensures txn.(queued := txn.queued || false) == txn
  {
  }

  lemma SameResponse(txn: Txn, url: Option<string>)
    ensures forall q :: BuildResponse(txn.(queued := q), url) == Response(txn.payment, url, txn.status)
  {
  }

  lemma CompleteResultSteps(s: Saga, t: Token, url: Option<string>, status: ProviderStatus)
    requires InPhase(s, CompleteResult(t, url, status))
    ensures Step(s, CompleteResult(t, url, status)) == DoCompleteResult(s, t, url, status)
  {
    hide DoCompleteResult;
  }

  /** The verdict before it is queued. */
  predicate Cancellable(txn: Txn) {
    || (txn.status == TxnCanceled && txn.reason == Some(ByProvider))
    || ((txn.status == TxnPending || txn.status == TxnCanceled) && txn.fulfillment == NotStarted)
  }

  lemma RecoveredIff(s: Saga, op: Op, result: ProviderResult)
    requires SagaOk(s) && s.op == Some(op) && op.result.Some? && op.result.value.payment == result.payment && op.terms.Some?
    requires op.transaction.Some? ==> op.transaction.value in s.txns && s.txns.Keys == {op.transaction.value}
    ensures var r := EnsureRecovered(s, op, result);
            var canceled := result.status == Canceled;
            match op.transaction
            case None =>
              r == if !op.terms.value.readable then NoTransaction
                   else Ensured(map[s.nextTxn := NewTxn(result.payment, op.terms.value, if canceled then TxnCanceled else TxnPending,
                                                         if canceled then Some(ByProvider) else None)], s.nextTxn)
            case Some(id) =>
              r == if !op.terms.value.readable || (canceled && !Cancellable(s.txns[id])) then NoTransaction
                   else Ensured(map[id := if canceled then s.txns[id].(status := TxnCanceled, reason := Some(ByProvider))
                                          else s.txns[id]], id)
  {
    hide SagaOk, EnsureTransaction, PaymentTaken;
    EnsureIff(s, op, result.payment, TxnPending, None);
    EnsureIff(s, op, result.payment, TxnCanceled, Some(ByProvider));
    if op.transaction.Some? {
      assert s.txns == map[op.transaction.value := s.txns[op.transaction.value]];
    }
  }

  lemma CompletesIff(s: Saga, t: Token, record: Op, id: int, response: Response, result: ProviderResult)
    requires s.op.Some? && s.op.value.id == record.id && (s.op.value.transaction.None? || s.op.value.transaction == Some(id))
    ensures var row := CompleteReconciliation(s.op.value, t, id, response, Some(result), s.clock);
            && (row.Some? <==> Holds(s, t, record))
            && (row.Some? ==> Completes(s.op.value, row.value, id, response, Some(result)))
  {
  }

  lemma SameMode(s: Saga, t: Token)
    requires SagaOk(s) && t in s.attempts && s.attempts[t].Ready?
    ensures s.op.Some? && s.op.value.id == s.attempts[t].record.id && s.op.value.mode == s.attempts[t].record.mode
  {
    hide CallOk, CallerOk, CountOk, TxnOk;
    assert AttemptOk(t, s.attempts[t], s.op, s.nextId, s.clock);
  }

  // ---------------------------------------------------------------- ending an attempt

  /**
   A failed attempt that still holds the row makes it manual, for good, if the failure is permanent or was the
   twelfth; otherwise it lets it go and the row is due again after the delay for its number of attempts.
   */
  lemma SettleIff(s: Saga, t: Token)
    requires InPhase(s, Settle(t))
    ensures var s', record := Step(s, Settle(t)), s.attempts[t].record;
            && s' == s.(op := s'.op, attempts := s.attempts[t := Over])
            && (if !Holds(s, t, record) then s'.op == s.op
                else if s.attempts[t].failure == Permanent || record.attempts >= 12 then
                  s'.op == Some(s.op.value.(status := ManualRequired, token := None, tokenUntil := None, nextAttempt := None))
                else
                  s'.op == Some(s.op.value.(token := None, tokenUntil := None,
                                            nextAttempt := Some(s.clock + Min(300, 5 * Pow2(Min(record.attempts, 6)))))))
  {
  }

  /** The sweep makes manual exactly the rows whose attempt outlived its lease. */
  lemma SweepIff(s: Saga)
    ensures var s' := Step(s, SweepLeases);
            if s.op.Some? && s.op.value.status == Unknown && s.op.value.token.Some? && Lapsed(s.op.value.tokenUntil, s.clock)
            then s' == s.(op := Some(s.op.value.(status := ManualRequired, nextAttempt := None)))
            else s' == s
  {
  }

  // ---------------------------------------------------------------- the order of the steps

  function AttemptOf(a: Action): Option<Token> {
    match a
    case Claim(t) => Some(t)
    case Load(t) => Some(t)
    case Recreate(t, _) => Some(t)
    case UseStored(t) => Some(t)
    case Checkpoint(t) => Some(t)
    case CompleteResult(t, _, _) => Some(t)
    case CompleteLinked(t) => Some(t)
    case LinkLocal(t) => Some(t)
    case Fail(t, _) => Some(t)
    case Settle(t) => Some(t)
    case _ => None
  }

  /** What an attempt does next is settled by how far it is and by the row it read; any work of it may fail instead. */
  lemma NextOfAttempt(s: Saga, t: Token, a: Action)
    requires t in s.attempts && AttemptOf(a) == Some(t)
    ensures InPhase(s, a) <==>
              match s.attempts[t]
              case Checked(_, _) => a.Claim?
              case Holder(_) => a.Load?
              case Loaded(record) =>
                a.Fail? || (if record.transaction != None then a.CompleteLinked?
                            else if record.mode == LocalMode || record.result != None then a.UseStored?
                            else a.Recreate?)
              case Obtained(_, _) => a.Fail? || a.Checkpoint?
              case Ready(record, _) => a.Fail? || (if record.mode == LocalMode then a.LinkLocal? else a.CompleteResult?)
              case Failing(_, _) => a.Settle?
              case Over => false
  {
  }

  /** A request handler goes from its claim over the boundary to the call, the checkpoint and the commit, in that order. */
  lemma NextOfCaller(s: Saga, c: int, a: Action)
    requires c in s.callers
    requires match a
             case Cross(d, plan) => c == d && PlanOk(plan)
             case Charge(d, _) => c == d
             case Record(d) => c == d
             case Commit(d) => c == d
             case _ => false
    ensures InPhase(s, a) <==>
              match s.callers[c]
              case Leader(_, _, _) => a.Cross?
              case Crossed(_, _, _) => a.Charge?
              case Charged(_, _, _, _) => a.Record?
              case Recorded(_, _, _, _) => a.Commit?
              case Finished => false
  {
  }
}
