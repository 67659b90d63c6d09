/** What a client is shown of its payment operation. */
module PaymentView {
  import opened Common
  import opened PaymentStore
  import opened PaymentSaga
  import opened PaymentSafety

  datatype PublicState = ShownSucceeded | ShownInProgress | ShownUnknown | ShownManual

  datatype View = View(state: PublicState, payment: Option<Response>, transaction: Option<Txn>, retry: Option<int>)

  datatype LookupError = LinkedTransactionUnavailable

  /** A lookup also expires a fulfillment that outlived its lease. */
  datatype Looked = Looked(view: View, txns: map<int, Txn>)

  const POLL_SECONDS := 2
  const MICROS := 1_000_000

  /** Python's `int`: toward zero. */
  function WholeSeconds(micros: int): int {
    if micros >= 0 then micros / MICROS else -(-micros / MICROS)
  }

  /** `now` is the application's clock in microseconds. */
  function RetryAfter(nextAttempt: Option<int>, now: int): int {
    if nextAttempt.None? then MIN_RETRY_SECONDS
    else Max(MIN_RETRY_SECONDS, Min(MAX_RETRY_SECONDS, WholeSeconds(nextAttempt.value * MICROS - now) + 1))
  }

  function Waiting(seconds: int): View {
    View(ShownInProgress, None, None, Some(seconds))
  }

  const Manual := View(ShownManual, None, None, None)

  /** The branches of `_view`. `clock` is the database's, in seconds; `now` the application's, in microseconds. */
  function ViewOf(op: Op, txns: map<int, Txn>, clock: int, now: int): Result<Looked, LookupError> {
    if (op.status.Succeeded? || (op.status.Unknown? && op.transaction.Some? && op.transaction.value != 0))
       && op.transaction.Some? && op.transaction.value !in txns
    then Err(LinkedTransactionUnavailable)
    else if op.status.Succeeded? then Ok(ViewOfSucceeded(op, txns, clock))
    else Ok(Looked(ViewOfUnfinished(op, txns, now), txns))
  }

  function ViewOfSucceeded(op: Op, txns: map<int, Txn>, clock: int): Looked
    requires op.transaction.Some? ==> op.transaction.value in txns
  {
    var txn := if op.transaction.Some? then Some(txns[op.transaction.value]) else None;
    var url := if op.result.Some? then op.result.value.url else None;
    var payment := if op.response.Some? then op.response
                   else if txn.Some? then Some(BuildResponse(txn.value, url)) else None;
    var proof := op.mode == LocalMode || (txn.Some? && txn.value.terms.free);
    var fulfilling := proof && txn.Some? && txn.value.fulfillment == Fulfilling;
    if fulfilling && !Expirable(txn.value, clock) then Looked(Waiting(POLL_SECONDS), txns)
    else
      var current := if fulfilling then Some(Expired(txn.value)) else txn;
      var after := if fulfilling then txns[op.transaction.value := Expired(txn.value)] else txns;
      var invalid := proof && current.Some? && !ProvesFulfillment(current.value);
      if payment.None? || current.None? || invalid then Looked(Manual, after)
      else Looked(View(ShownSucceeded, payment, current, None), after)
  }

  function ViewOfUnfinished(op: Op, txns: map<int, Txn>, now: int): View
    requires op.status.Unknown? && op.transaction.Some? && op.transaction.value != 0 ==> op.transaction.value in txns
  {
    var linked := op.status.Unknown? && op.transaction.Some? && op.transaction.value != 0;
    var proof := linked && NeedsProof(op, txns[op.transaction.value]);
    if proof && txns[op.transaction.value].fulfillment == FulfillmentManual then Manual
    else if proof && txns[op.transaction.value].fulfillment in {NotStarted, Fulfilling}
            && txns[op.transaction.value].status != TxnRefunded
    then Waiting(POLL_SECONDS)
    else
      match op.status
      case Claimed => Waiting(POLL_SECONDS)
      case Processing => Waiting(POLL_SECONDS)
      case ManualRequired => Manual
      case _ => View(ShownUnknown, None, None, Some(RetryAfter(op.nextAttempt, now)))
  }

  // ---------------------------------------------------------------- properties

  /** The response schema's rules. */
  predicate Conforms(view: View) {
    && (view.retry.Some? ==> 1 <= view.retry.value <= 300)
    && (if view.state == ShownSucceeded then view.payment.Some? && view.transaction.Some? && view.retry.None?
        else
          && view.payment.None? && view.transaction.None?
          && (view.retry.Some? <==> view.state != ShownManual))
  }

  /** Every view of every row satisfies the response schema, whatever the row and the transactions hold. */
  lemma ViewConforms(op: Op, txns: map<int, Txn>, clock: int, now: int)
    ensures ViewOf(op, txns, clock, now).Ok? ==> Conforms(ViewOf(op, txns, clock, now).value.view)
  {
  }

  /** SUCCEEDED is shown exactly for a completed row with its transaction there and, where needed, proven fulfilled. */
  lemma ShownSucceededIff(op: Op, txns: map<int, Txn>, clock: int, now: int)
    ensures ViewOf(op, txns, clock, now).Ok? && ViewOf(op, txns, clock, now).value.view.state == ShownSucceeded
            <==> && op.status.Succeeded? && op.transaction.Some? && op.transaction.value in txns
                 && (NeedsProof(op, txns[op.transaction.value]) ==> ProvesFulfillment(txns[op.transaction.value]))
  {
  }

  /** A lookup changes at most the linked transaction, and only one that lost its fulfillment lease without proof. */
  lemma LookupExpiresOnly(op: Op, txns: map<int, Txn>, clock: int, now: int)
    requires ViewOf(op, txns, clock, now).Ok? && ViewOf(op, txns, clock, now).value.txns != txns
    ensures op.transaction.Some? && op.transaction.value in txns
    ensures var t := op.transaction.value;
            && Expirable(txns[t], clock) && ViewOf(op, txns, clock, now).value.txns == txns[t := Expired(txns[t])]
            && ViewOf(op, txns, clock, now).value.view == Manual
  {
  }

  /** In every reachable state a lookup succeeds, changes nothing, and shows SUCCEEDED exactly for a SUCCEEDED row. */
  lemma ReachableViews(start: int, actions: seq<Action>, now: int)
    requires Run(Fresh(start), actions).op.Some?
    ensures var s := Run(Fresh(start), actions);
            var op := s.op.value;
            var r := ViewOf(op, s.txns, s.clock, now);
            && r.Ok? && r.value.txns == s.txns
            && (r.value.view.state == ShownSucceeded <==> op.status.Succeeded?)
            && (op.status.Succeeded? ==>
                  && r.value.view.payment == op.response && r.value.view.transaction.Some?
                  && op.response.value.payment == r.value.view.transaction.value.payment)
  {
    hide Run;
    FreshIsOk(start);
    RunKeeps(Fresh(start), actions);
    hide AttemptOk, CallerOk, CallOk, CountOk;
  }

  /** A client that waits as it is told does not ask before the row is due, unless that is over five minutes away. */
  lemma RetryIsNotEarly(nextAttempt: int, now: int)
    requires nextAttempt * MICROS - now < (MAX_RETRY_SECONDS - 1) * MICROS
    ensures now + RetryAfter(Some(nextAttempt), now) * MICROS > nextAttempt * MICROS
  {
  }

  /** The delay told is the whole seconds to go and one more, within 5..300. */
  lemma RetryAfterIff(nextAttempt: int, now: int)
    ensures var r, wait := RetryAfter(Some(nextAttempt), now), nextAttempt * MICROS - now;
            && 5 <= r <= 300
            && (5 < r < 300 ==> (r - 1) * MICROS <= wait < r * MICROS)
            && (r == 5 <==> wait < 5 * MICROS) && (r == 300 <==> wait >= 299 * MICROS)
    ensures RetryAfter(None, now) == 5
  {
  }

  /** A row out of its handlers' hands that has its transaction, but not the end of the saga. */
  predicate Awaits(op: Op) {
    op.status == Unknown && op.transaction != None && op.transaction != Some(0)
  }

  /** Proof of fulfillment is still to come. */
  predicate InFulfillment(op: Op, txn: Txn) {
    && (op.mode == LocalMode || txn.terms.free)
    && txn.fulfillment in {NotStarted, Fulfilling} && txn.status != TxnRefunded
  }

  /** Proof of fulfillment is left to a person. */
  predicate Unproven(op: Op, txn: Txn) {
    (op.mode == LocalMode || txn.terms.free) && txn.fulfillment == FulfillmentManual
  }

  /** Which of the four states is shown, and with what delay, exactly; and when the lookup fails. */
  lemma ViewIff(op: Op, txns: map<int, Txn>, clock: int, now: int)
    ensures var r := ViewOf(op, txns, clock, now);
            if op.transaction.Some? && op.transaction.value !in txns && (op.status == Succeeded || Awaits(op)) then
              r == Err(LinkedTransactionUnavailable)
            else
              && r.Ok?
              && (r.value.view.state == ShownInProgress <==>
                    || op.status == Claimed || op.status == Processing
                    || (Awaits(op) && InFulfillment(op, txns[op.transaction.value]))
                    || (op.status == Succeeded && op.transaction.Some? && NeedsProof(op, txns[op.transaction.value])
                        && txns[op.transaction.value].fulfillment == Fulfilling && !Expirable(txns[op.transaction.value], clock)))
              && (r.value.view.state == ShownUnknown <==>
                    op.status == Unknown
                    && !(Awaits(op) && (InFulfillment(op, txns[op.transaction.value]) || Unproven(op, txns[op.transaction.value]))))
              && (r.value.view.state == ShownInProgress ==> r.value.view.retry == Some(2))
              && (r.value.view.state == ShownUnknown ==> r.value.view.retry == Some(RetryAfter(op.nextAttempt, now)))
  {
  }
}
