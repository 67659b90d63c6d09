# Verified model of the cabinet's notification, payment and coordination code

This project models the parts of the service that have to stay right while several processes,
crashes and retries interleave, and the codecs and arithmetic they rest on. It is written in Dafny;
`dafny verify dfyconfig.toml` checks all of it.

## What is modelled

- **Notification outbox** (`Outbox*.dfy`). A world is the delivery table with a clock; each SQL
  transaction of the service is one atomic action, and a row carries the history of its claims and
  recorded failures. `OutboxModel` is the machine, `OutboxSafety` its invariant, `OutboxEffects` what
  each transaction does to the rows, `OutboxTheorems` and `OutboxRecall` what holds over whole runs.
  `OutboxService` and `OutboxPush` are the service's own methods, e-mail and Web Push loops included,
  each proved to be a step or a run of the machine while others commit in between.
- **Payment operations** (`Payment*.dfy`). `PaymentStore` has the guarded updates of the data-access
  layer, `PaymentSaga` the machine of request handlers and reconciliation attempts on one
  idempotency identity, `PaymentSafety` its invariant, `PaymentEffects` what each action does to the
  row; `PaymentTheorems`, `PaymentReplay`, `PaymentLimits`, `PaymentLeaders` and `PaymentView` the
  results, `PaymentService` the services' methods.
- **Redis coordination**: the re-entrant subscription lock (`SubscriptionLock*.dfy`), the send-slot
  script and its waiting loop (`SendSlot.dfy`), the refresh tokens and their index (`RefreshTokens.dfy`).
- **Codecs and arithmetic**: the signed payment cursor (`Cursor.dfy` over `Base64`, `Calendar`,
  `FlatJson`, `JsonSpelling` and `Text`), the recovery snapshot (`Snapshot*.dfy` over `DecimalText`,
  `UuidText` and `NumberSpelling`), prices and discounts (`Pricing.dfy`).
- **Index, renderer, graph, feed**: `Activity.dfy`, `TelegramHtml.dfy` and `TelegramTree.dfy`, `ReferralGraph.dfy`, `Feed.dfy`.

## Assumptions

- Clocks do not run backwards, and the time a worker has read is not ahead of the clock it acts under.
- Random tokens, digests and generated ids are fresh: never drawn twice.
- One Redis script is one atomic step. The database isolates statements, not transactions: a transaction is
  one step where it is one guarded statement, or where its last guarded write protects what it read; the
  recall, the sweep, the recording of push results and the block that checks a payment row and then claims
  it are several steps, and others commit between them. What a recall has canceled it keeps locked until it
  commits, so that others treat it as canceled from the first statement on.
- Payment ids of different operations differ, so one identity can be modelled by itself. The gateway's
  verification answers for the payment it was asked about.
- A Redis key lives up to and including its expiry; `TTL` answers in seconds rounded to the nearest.

## What turned out otherwise than expected

- The ineligible-at-delivery branch leaves an old token on the row, which the table's own
  processing-fence constraint forbids: on an expired PROCESSING row the transaction is rolled back and
  the loop fails instead of canceling the row (`OutboxTheorems.AbortsExactly`, `OutboxPush.ClaimPushEnabled`).
- A recall misses a push that is being sent at its first statement and waits for a retry at its second
  (`OutboxRecall.MissedIff`, `OutboxRecall.APushSlips`).
- A sweep can delete a revocation before its message (`OutboxRecall.StepForgetsIff`,
  `OutboxRecall.ARevocationIsForgotten`).
- Thirteen reconciliation claims are possible, not twelve (`PaymentLimits.ThirteenClaimsHappen`).
- A create call can be repeated past its replay window, after a check in time or of a claimed row, and only
  then (`PaymentReplay.CallsWereCheckedInTime`, `LateClaimReplays`, `ClaimedRowReplays`).
- Two unexpired leaders of one identity are possible after a late abandon
  (`PaymentLeaders.LateStopsAdmitASecondLeader`); the boundary is still crossed only once.
- Revoking all tokens of a user can miss one for up to half a second (`RefreshTokens.RevokeAllMissesIff`,
  `RefreshTokens.RevokeAllCanMiss`).
- The referral query is documented as counting paths; it counts the descendant, so it answers 0 or 1
  (`ReferralGraph.PathCount`).

## Model

| member | source | states |
|---|---|---|
| OutboxSafety.RunKeepsWorld | src/infrastructure/services/notification_channels.py:570-769 | after every run of workers, sweeps, recalls, deletions and clock ticks the table is sound: claims of a row never overlap, only the last claim can hold the row, attempts equal recorded failures, failures are spaced by the backoff |
| OutboxTheorems.EmptyWorldOk | src/infrastructure/services/notification_channels.py:197-246 | the empty table is sound, so all of the following holds of every reachable table |
| OutboxTheorems.NoTwoLiveClaims | src/infrastructure/services/notification_channels.py:622-668 | two unsettled, unexpired claims on one row are the same claim, after any run |
| OutboxTheorems.SupersededSettleChangesNothing | src/infrastructure/services/notification_channels.py:634-668 | a finish or release by a worker whose claim is no longer the row's leaves the row and its failures exactly as they were |
| OutboxTheorems.AbortsExactly | src/infrastructure/database/models/notification_delivery.py:69-75 | a transaction is rolled back by the processing-fence constraint if and only if a claim finds a PROCESSING row (its old lease over) whose user has become ineligible |
| OutboxTheorems.StepAt | src/infrastructure/services/notification_channels.py:570-769 | a committed action takes every row to its own update and adds rows; an aborted one changes no row |
| OutboxTheorems.TerminalIsFinal | src/infrastructure/services/notification_channels.py:634-668 | SENT and FAILED rows never change until deleted; CANCELED rows neither, on every run under the constraint, and without it on every run whose deferred releases happen within their lease |
| OutboxTheorems.DeletedStaysDeleted | src/infrastructure/services/notification_channels.py:598-611 | a deleted row never comes back under its id |
| OutboxTheorems.FencedRunsAreDisciplined | src/infrastructure/database/models/notification_delivery.py:69-75 | with the constraint installed no run needs the release discipline |
| OutboxTheorems.CanceledComesBackExactly | src/infrastructure/services/notification_channels.py:742-754 | one step takes a row out of CANCELED if and only if it is a deferred release by the worker whose token the row still bears, which the constraint makes impossible |
| OutboxTheorems.WithoutFenceCanceledComesBack | src/infrastructure/services/notification_channels.py:698-754 | without the constraint there is a run from the empty table that brings a canceled message back into the queue by a release after its lease |
| OutboxTheorems.OpenRowsHaveAttemptsLeft | src/infrastructure/services/notification_channels.py:645-655 | a row that is not terminal has fewer than eight attempts, all of them recorded failures; PENDING has none, RETRY_WAITING at least one |
| OutboxTheorems.BackoffValues | src/infrastructure/services/notification_channels.py:113-114 | the retry delays are 60, 120, 240, 480, 960, 1920 and 3600 seconds |
| OutboxTheorems.ExhaustionTakesTwoHours | src/infrastructure/services/notification_channels.py:65-66 | a row that failed by exhausting its eight attempts has at least 7380 seconds between its first and eighth recorded failure |
| OutboxEffects.CancelPendingIff | src/infrastructure/services/notification_channels.py:338-350 | cancel_pending changes a row if and only if it is of that source and PENDING or RETRY_WAITING; it is CANCELED then, and nothing else about it changes but its time of change |
| OutboxEffects.SweepIff | src/infrastructure/services/notification_channels.py:570-611 | the sweep cancels a row if and only if it is in the batch, has expired, and waits or has outlived its lease; it deletes one if and only if it is in the batch, terminal and unchanged for more than thirty days |
| OutboxEffects.DropIff | src/infrastructure/services/notification_channels.py:965-970 | deleting a subscription or a user deletes exactly its rows |
| OutboxEffects.ClaimEmailIff | src/infrastructure/services/notification_channels.py:679-712 | an e-mail can be claimed if and only if it is due; it is held for ten minutes if its user may be mailed, else canceled or the transaction rolled back, and no other row changes |
| OutboxEffects.ClaimPushIff | src/infrastructure/services/notification_channels.py:887-931 | of a claimed batch every row was due; messages of blocked users are canceled, the others and all revocations are held, and one row that cannot be canceled rolls back all of it |
| OutboxEffects.SettlesOnceIff | src/infrastructure/services/notification_channels.py:634-668 | a worker can settle its own open claim, once |
| OutboxEffects.SettleIff | src/infrastructure/services/notification_channels.py:634-668 | under the fence a delivered row is SENT, a retryable failure before the eighth is RETRY_WAITING until the backoff for its attempts is over, any other failure is FAILED, and the attempt counts; a deferred release is due at once and does not count; without the fence nothing changes |
| OutboxEffects.EnqueueIff | src/infrastructure/services/notification_channels.py:237-244 | an enqueued message waits at once under its own key, unless that key is taken; no row there before changes |
| OutboxEffects.QueueRevokesIff | src/infrastructure/services/notification_channels.py:400-425 | a queued revocation waits at once and for three days, for the user and device of the push it names, unless that push is revoked already |
| OutboxEffects.RunEndsIff | src/infrastructure/services/notification_channels.py:570-769 | after any disciplined run a row is SENT, FAILED early, FAILED at its eighth attempt or CANCELED if and only if it was so at the start or the run holds the action that brings it there: FAILED early only by a permanent failure |
| OutboxRecall.RunKeepsRevokes | src/infrastructure/services/notification_channels.py:369-437 | a revocation row always names a row that existed, with the same user and device |
| OutboxRecall.RecallStopsWaiting | src/infrastructure/services/notification_channels.py:372-381 | what waited when a recall canceled is CANCELED for good, on every run without a new enqueue for the source |
| OutboxRecall.MissedIff | src/infrastructure/services/notification_channels.py:372-425 | others committing between the recall's statements, a push that can still be delivered after it has no revocation if and only if it was being sent at the cancellation, waited again at the select, and no earlier recall had revoked it |
| OutboxRecall.APushSlips | src/infrastructure/services/notification_channels.py:372-425 | that happens: a run from the empty table sends such a push after the recall, without a revocation |
| OutboxRecall.RecallHolds | src/infrastructure/services/notification_channels.py:369-437 | a push of the source that did not slip and is SENT at any later time has exactly the one revocation the recall left it, if and only if no sweep has purged that |
| OutboxRecall.StepForgetsIff | src/infrastructure/services/notification_channels.py:598-611 | while a message is kept, a step removes its revocation if and only if it is a sweep with that revocation in its batch, terminal and unchanged for more than 30 days |
| OutboxRecall.RunForgetsIff | src/infrastructure/services/notification_channels.py:598-611 | over a whole run that keeps the message, its revocation is gone if and only if some sweep purged it so |
| OutboxRecall.RevokeLastsForRetention | src/infrastructure/services/notification_channels.py:598-611 | so a message keeps its revocation for 30 days from that revocation's own last change |
| OutboxRecall.ARevocationIsForgotten | src/infrastructure/services/notification_channels.py:598-611 | past that it can lose it: a run from the empty table ends with a SENT push whose revocation was purged first |
| OutboxRecall.RecallIsIdempotent | src/infrastructure/services/notification_channels.py:369-437 | recalling again after any run without an enqueue for the source adds no revocation, unless a push had slipped, a revocation of the source was purged, or a target's message is deleted under the recall |
| OutboxRecall.AgainCancelsOnlyTheSending | src/infrastructure/services/notification_channels.py:372-381 | all that a repeated recall can still find waiting was being sent at the first one |
| OutboxService.NotificationChannels.SelectDue | src/infrastructure/services/notification_channels.py:622-632 | the claimed row is due, unlocked, and first in delivery order; none is chosen only if none is due |
| OutboxService.NotificationChannels.ClaimEmail | src/infrastructure/services/notification_channels.py:681-712 | the claiming transaction takes the first due unlocked row and holds it for ten minutes, cancels it when its user is not eligible, or aborts when that row is also PROCESSING under the constraint; no other row changes, and it does nothing only when nothing is due |
| OutboxService.NotificationChannels.Finish | src/infrastructure/services/notification_channels.py:634-668 | recording an outcome is the machine's finish; in the table, the job's own row takes the outcome if it is still held under the job's token, and no other row changes |
| OutboxService.NotificationChannels.ReleaseDeferred | src/infrastructure/services/notification_channels.py:735-755 | the deferred release is the machine's release, guarded by id and token only; in the table, the job's own row is due again with its attempts as they were, and no other row changes |
| OutboxService.NotificationChannels.CancelPending | src/infrastructure/services/notification_channels.py:338-350 | in the table exactly the rows of the source that were PENDING or RETRY_WAITING have changed, to CANCELED, and their number is reported |
| OutboxService.NotificationChannels.Sweep | src/infrastructure/services/notification_channels.py:570-611 | each statement of the sweep cancels exactly the overdue rows of its batch and deletes exactly those terminal for thirty days |
| OutboxService.NotificationChannels.Maintain | src/infrastructure/services/notification_channels.py:570-611 | the sweep expires one batch and purges another, others committing in between; with nobody in between the table has lost and changed exactly the rows it should |
| OutboxService.NotificationChannels.SelectRevocable | src/infrastructure/services/notification_channels.py:384-397 | the select reads exactly the pushes of the source that are sent or being sent, each once |
| OutboxService.NotificationChannels.Recall | src/infrastructure/services/notification_channels.py:369-437 | the recall is the three-statement recall of the machine, others committing between its statements; undisturbed, it cancels the waiting rows of its source and no other, and adds one revocation for each push sent or being sent |
| OutboxService.NotificationChannels.InsertRevokes | src/infrastructure/services/notification_channels.py:417-424 | inserting with conflicts ignored adds exactly the revocations whose key was free |
| OutboxService.NotificationChannels.EmailPass | src/infrastructure/services/notification_channels.py:678-776 | one pass is a run in which, in order, the worker claims the first due row under this pass's token and settles that row as the sender answered; it does nothing only if nothing is due or the claim aborts |
| OutboxService.NotificationChannels.DeliverEmail | src/infrastructure/services/notification_channels.py:672-778 | the delivery loop is a run of the machine made of passes, each settled as its sender answered; it goes on after every pass that sent, failed or canceled, and with time and limits left it stops only when nothing is due, the sender deferred, or a claim aborted; its counters count its own actions |
| OutboxService.DeliveryOrder | src/infrastructure/services/notification_channels.py:626-630 | rows are taken by the time of their next attempt, and at equal times by id |
| OutboxPush.ClaimPushEnabled | src/infrastructure/services/notification_channels.py:887-921 | a push batch aborts if and only if it contains a blocked user's PROCESSING message row |
| OutboxPush.SelectBatch | src/infrastructure/services/notification_channels.py:891-908 | a batch holds the first due rows of existing devices in delivery order, and all of them when it is not full |
| OutboxPush.ClaimBatch | src/infrastructure/services/notification_channels.py:887-931 | claiming the first due batch is one step of the machine; every row of it that was not refused goes out under this batch's token, and no other |
| OutboxPush.RecordPush | src/infrastructure/services/notification_channels.py:958-997 | recording one result finishes that row or deletes its device, and leaves every other job of the batch owed |
| OutboxPush.RecordingIff | src/infrastructure/services/notification_channels.py:958-997 | recording an answer deletes the rows of a device that is gone or failed for good too often, and otherwise settles the job's own row if it is still held; no other row changes |
| OutboxPush.RecordBatch | src/infrastructure/services/notification_channels.py:947-952 | the recording transaction performs all results in order and counts the delivered ones |
| OutboxPush.DeliverPush | src/infrastructure/services/notification_channels.py:874-956 | the push loop is a run of the machine made of batches, each with every answer recorded; with limit left it stops only when nothing is due or a batch aborts; sent counts its delivered outcomes and processed the rows it claimed |
| PaymentSafety.RunKeeps | src/application/services/payment_reconciliation.py:470-1057 | the saga's invariant after every run: callers, attempts, calls, transactions and the attempt count agree with the stored row |
| PaymentTheorems.CallsCarryTheStoredKey | src/application/services/payment_reconciliation.py:824-843 | every create call ever made names the operation's id and its one stored provider key; a reconciling call was made only on a row read without result and without link |
| PaymentTheorems.KeyStays | src/application/services/payment_idempotency.py:39-110 | while a row lives its provider key and request hash never change, and a deleted row's id never returns |
| PaymentTheorems.RunEvolves | src/infrastructure/database/dao/payment_operation.py:164-232 | a started operation keeps its id, key, hash, request and terms, never loses its checkpointed payment id or its link, and its attempt count never falls |
| PaymentTheorems.SettledIsFinal | src/infrastructure/database/dao/payment_operation.py:573-614 | a SUCCEEDED or MANUAL_REQUIRED row is never changed again by any action |
| PaymentTheorems.NoCallAfterTheCheckpoint | src/application/services/payment_reconciliation.py:786-817 | once a result is checkpointed and nobody who read the row earlier is about to call, no create call is ever made again |
| PaymentTheorems.OneCrossing | src/application/services/payment_idempotency.py:112-136 | the boundary before the side effect is crossed at most once per identity, even by superseded leaders |
| PaymentTheorems.HandlersCallOnce | src/application/use_cases/gateways/commands/payment.py:277-285 | request handlers together make at most one create call; every later call is a reconciliation attempt's |
| PaymentTheorems.OneTransaction | src/application/services/payment_reconciliation.py:470-492 | there is at most one local transaction; it exists exactly when it is linked, for the checkpointed payment id and the stored terms |
| PaymentTheorems.LinkIsFinal | src/application/services/payment_reconciliation.py:558-662 | a link is never moved and its transaction never becomes another payment's |
| PaymentTheorems.CompletedIsFulfilled | src/application/services/payment_reconciliation.py:522-662 | a free or LOCAL operation is SUCCEEDED only with a linked transaction whose fulfillment SUCCEEDED with a completion time |
| PaymentTheorems.OneAttemptAtATime | src/infrastructure/database/dao/payment_operation.py:311-340 | two reconciliation attempts are never at work together, and the one at work holds the row's token |
| PaymentTheorems.OtherRequestsConflict | src/application/services/payment_idempotency.py:62-88 | a caller conflicts if and only if the row has another request hash, and then the row is unchanged |
| PaymentEffects.StartAnswers | src/application/services/payment_idempotency.py:62-110 | a request is told, by the row alone: conflict for another hash; to lead when there is no row or a CLAIMED one whose lease is over; the stored response of a SUCCEEDED row; outcome unknown for UNKNOWN, MANUAL_REQUIRED, a PROCESSING row whose lease is over or a missing response; else in progress |
| PaymentEffects.StartIff | src/application/services/payment_idempotency.py:39-81 | start makes a new claim of five minutes, renews one whose lease is over, makes a run whose lease is over UNKNOWN, or leaves the row |
| PaymentEffects.RepliesForEver | src/application/services/payment_idempotency.py:95-102 | once the operation has SUCCEEDED every later request with its hash, after any run, is replayed the response stored then |
| PaymentEffects.CrossIff | src/infrastructure/database/dao/payment_operation.py:164-197 | the boundary is crossed on the leader's own CLAIMED row, which takes the whole plan and a lease of thirty minutes, else the caller is refused |
| PaymentEffects.ChargeIff | src/application/use_cases/gateways/commands/payment.py:282-289 | a payment that is not free makes one create call under the stored key; a free one takes its local payment and calls nobody |
| PaymentEffects.RecordIff | src/infrastructure/database/dao/payment_operation.py:199-216 | the result is checkpointed on the caller's own PROCESSING row unless another result is there |
| PaymentEffects.CommitIff | src/application/use_cases/gateways/commands/payment.py:301-318 | creation, link and, unless free, completion with the response happen together exactly for the caller's own unlinked PROCESSING row and a payment still open and unknown; else nothing happens |
| PaymentEffects.StopIff | src/application/services/payment_idempotency.py:189-204 | a handler that gives up leaves UNKNOWN past the boundary and deletes its claim before it |
| PaymentEffects.CompleteIff | src/infrastructure/database/dao/payment_operation.py:233-276 | whatever its caller planned, a local operation, or one whose linked transaction is free, is completed only once that is fulfilled; completing again is allowed with the same response only |
| PaymentEffects.CheckIff | src/application/services/payment_reconciliation.py:894-942 | a row can be claimed if and only if it is UNKNOWN or a run whose lease is over, and not out of tries: an unclaimed row is retired at twelve attempts, or when it could only be replayed and its replay window is over |
| PaymentEffects.ClaimIff | src/application/services/payment_reconciliation.py:944-960 | a claim wins if and only if its row is UNKNOWN, unclaimed and due; it counts one attempt and holds the row for five minutes; a lost one retires a row that is out of tries |
| PaymentEffects.RecreateIff | src/application/services/payment_reconciliation.py:824-843 | the create call is repeated only for a row neither linked nor answered, replayable, with gateway, owner and a valid request |
| PaymentEffects.UseStoredIff | src/application/services/payment_reconciliation.py:788-822 | a checkpointed result is used as it is, and a local payment's is made from its stored request |
| PaymentEffects.CheckpointIff | src/infrastructure/database/dao/payment_operation.py:444-471 | an attempt's result is checkpointed exactly under its token and unexpired lease, unless another result is there |
| PaymentEffects.LinkLocalIff | src/application/services/payment_reconciliation.py:664-691 | a local payment's transaction is created, queued and linked and the row let go for five seconds exactly under the fence; else nothing is written |
| PaymentEffects.CompleteLinkedIff | src/application/services/payment_reconciliation.py:522-556 | a linked row is completed if its transaction needs no proof of fulfillment or has it; else fulfillment is waited for, queued if it can still begin, or the failure is permanent |
| PaymentEffects.CompleteResultIff | src/application/services/payment_reconciliation.py:558-621 | a checkpointed gateway result completes the row with a transaction that has taken the provider's verdict, or the attempt fails, for good when recovery data or the transaction stand against it, and nothing is written |
| PaymentEffects.SettleIff | src/application/services/payment_reconciliation.py:743-776 | a failed attempt that still holds the row makes it manual if the failure is permanent or was the twelfth, and otherwise lets it go for 10, 20, 40, 80, 160 or 300 seconds |
| PaymentEffects.NextOfAttempt | src/application/services/payment_reconciliation.py:778-848 | what an attempt does next is settled by how far it is and by the row it read: complete what is linked, use what is stored, link what is local, else repeat the create call; any of it may fail instead |
| PaymentEffects.NextOfCaller | src/application/use_cases/gateways/commands/payment.py:274-318 | a handler goes from its claim over the boundary to the call, the checkpoint and the commit, in that order and no other |
| PaymentEffects.SweepIff | src/infrastructure/database/dao/payment_operation.py:389-411 | the sweep makes manual exactly the UNKNOWN rows whose attempt outlived its lease |
| PaymentReplay.NoReplayAfterTheWindow | src/infrastructure/database/dao/payment_operation.py:342-365 | once a check finds an unclaimed row past its replay window, or out of attempts, it is manual for good and no attempt ever makes a create call for it again |
| PaymentReplay.CallsWereCheckedInTime | src/application/services/payment_reconciliation.py:926-951 | so an attempt's create call goes back to a check that found the row claimed or within its window |
| PaymentReplay.LateClaimReplays | src/application/services/payment_reconciliation.py:926-951 | the first of these happens past the window: a run from the empty state checks within the window and claims after it |
| PaymentReplay.ClaimedRowReplays | src/application/services/payment_reconciliation.py:926-951 | and the second: a check past the window finds the row claimed, and claims it when it is let go |
| PaymentReplay.RunKeepsWhole | src/application/use_cases/gateways/commands/payment.py:241-280 | a replayable row always names its gateway, its owner and the end of its window, which never moves |
| PaymentReplay.CrossingSetsTheWindow | src/application/use_cases/gateways/commands/payment.py:256-265 | the window ends twenty-three hours after the boundary was crossed |
| PaymentLimits.ClaimsAreCounted | src/infrastructure/database/dao/payment_operation.py:311-340 | the stored attempt count is the number of claims that won |
| PaymentLimits.AtMostThirteenClaims | src/application/services/payment_reconciliation.py:35-38 | on every run an operation is claimed at most thirteen times |
| PaymentLimits.AtMostTwelveClaimsIff | src/infrastructure/database/dao/payment_operation.py:311-340 | at most twelve times if and only if the claiming statement, which does not look at the count, never runs on a due row that has had twelve |
| PaymentLimits.OverclaimIsLate | src/application/services/payment_reconciliation.py:915-962 | such a claim comes five seconds or more after the check in its block, and finds a fulfillment already linked |
| PaymentLimits.AtMostTwelvePromptClaims | src/application/services/payment_reconciliation.py:915-962 | so claims that come less than five seconds after their check keep to twelve |
| PaymentLimits.ThirteenClaimsHappen | src/application/services/payment_reconciliation.py:915-962 | without that, thirteen is reached from the empty state: the twelfth attempt links a pending fulfillment and lets the row go without the attempt check |
| PaymentLimits.ExhaustedIsMadeManual | src/infrastructure/database/dao/payment_operation.py:367-387 | an unclaimed UNKNOWN row with twelve attempts or more is made manual by the next request |
| PaymentLimits.LostAttemptIsMadeManual | src/infrastructure/database/dao/payment_operation.py:389-411 | an attempt that dies with its lease is made manual by the sweep |
| PaymentLimits.DelaysGrow | src/application/services/payment_reconciliation.py:759-776 | release delays never shrink with the attempt count and lie between 10 and 300 seconds |
| PaymentLeaders.LeadersOfARow | src/application/services/payment_idempotency.py:39-110 | leaders of one row hold the same provider key and no two of them hold an unexpired claim |
| PaymentLeaders.StepKeepsLeading | src/infrastructure/database/dao/payment_operation.py:710-717 | a step leaves some unexpired leader without its row if and only if it is a leader's abandon of a row that another unexpired leader holds |
| PaymentLeaders.OneLeaderPerIdentity | src/application/services/payment_idempotency.py:62-110 | as long as no abandon does that, an identity has at most one unexpired leader |
| PaymentLeaders.RobberyAdmitsASecond | src/application/services/payment_idempotency.py:197-204 | and once one does, the very next caller becomes a second unexpired leader |
| PaymentLeaders.TimelyStopsRobNobody | src/application/services/payment_idempotency.py:197-204 | leaders that give up only within their lease never do that |
| PaymentLeaders.LateStopsAdmitASecondLeader | src/application/services/payment_idempotency.py:197-204 | two unexpired leaders are reached from the empty state |
| PaymentView.ViewConforms | src/web/schemas/subscription.py:110-133 | every view of every row obeys the response's state, payload and retry rules, with the retry within 1..300 |
| PaymentView.ShownSucceededIff | src/application/services/payment_reconciliation.py:120-193 | SUCCEEDED is shown if and only if the row is SUCCEEDED, its transaction is there, and where proof is needed it is fulfilled |
| PaymentView.LookupExpiresOnly | src/application/services/payment_reconciliation.py:139-163 | a lookup changes at most the linked transaction, and only when its fulfillment lease is over; it is then shown as manual |
| PaymentView.ReachableViews | src/application/services/payment_reconciliation.py:236-251 | in every reachable state a lookup succeeds, changes nothing, and shows SUCCEEDED exactly for a SUCCEEDED row, with the stored response for that payment |
| PaymentView.RetryIsNotEarly | src/application/services/payment_reconciliation.py:108-118 | a client that waits as told does not ask before the row is due, unless that is about five minutes away or more |
| PaymentView.RetryAfterIff | src/application/services/payment_reconciliation.py:108-118 | the delay told is the whole seconds to go and one more, within 5..300; 5 and 300 exactly when it would be outside |
| PaymentView.ViewIff | src/application/services/payment_reconciliation.py:120-236 | which of the four states is shown and with what delay, exactly, and exactly when the lookup fails |
| PaymentService.PaymentOperations.RecoverStale | src/application/services/payment_idempotency.py:39-60 | renews a claim exactly when its lease is over, expires a run exactly when its lease is over, and touches nothing else |
| PaymentService.PaymentOperations.Start | src/application/services/payment_idempotency.py:62-110 | start is the machine's start, and the answer is the one the stored row decides |
| PaymentService.PaymentOperations.MarkProcessing | src/application/services/payment_idempotency.py:112-136 | the boundary is crossed exactly when the leader's own row is still CLAIMED |
| PaymentService.PaymentOperations.CheckpointResult | src/application/services/payment_idempotency.py:138-150 | the handler's checkpoint is the machine's, or nothing changes |
| PaymentService.PaymentOperations.CommitPayment | src/application/use_cases/gateways/commands/payment.py:297-314 | creation, link and completion happen together, of the only transaction there is, or not at all |
| PaymentService.PaymentOperations.GiveUp | src/application/services/payment_idempotency.py:189-204 | giving up marks a crossed operation UNKNOWN and deletes only a CLAIMED row |
| PaymentService.PaymentOperations.CheckRow | src/application/services/payment_reconciliation.py:894-942 | the claiming block lets a row be claimed if and only if it is UNKNOWN or a run whose lease is over, and not out of attempts or past its replay window; it deletes a claim whose lease is over and makes manual what is out of tries |
| PaymentService.PaymentOperations.ClaimRow | src/application/services/payment_reconciliation.py:944-960 | the claim wins if and only if the checked row is UNKNOWN, unclaimed and due; a won claim raises the attempt count by one and holds the row, a lost one retires a row that is out of tries |
| PaymentService.PaymentOperations.ClaimForReconciliation | src/application/services/payment_reconciliation.py:886-971 | check, claim and re-read, others committing in between, are a run whose own actions are exactly those, as far as the claim is won |
| PaymentService.PaymentOperations.ObtainResult | src/application/services/payment_reconciliation.py:786-848 | an attempt begins as its record and the provider's answer decide: the stored result, the local payment, the create call, or a failure; what is new is checkpointed |
| PaymentService.PaymentOperations.CompleteWithResult | src/application/services/payment_reconciliation.py:558-621 | verifying and completing is the machine's step; a failure leaves the row and the transactions as they were |
| PaymentService.PaymentOperations.CompleteLinkedRow | src/application/services/payment_reconciliation.py:623-662 | completing a linked row is the machine's step, and success means SUCCEEDED |
| PaymentService.PaymentOperations.CreateLocalTransaction | src/application/services/payment_reconciliation.py:664-691 | the local transaction is created, queued and linked together, or nothing changes |
| PaymentService.PaymentOperations.SettleFailure | src/application/services/payment_reconciliation.py:743-776 | a failure ends the attempt as manual or released, under its fence |
| PaymentService.PaymentOperations.ReconcileClaimed | src/application/services/payment_reconciliation.py:778-852 | a claimed attempt takes the course its record and the answers decide, through its stages in order, and ends over or owing a failure |
| PaymentService.PaymentOperations.Reconcile | src/application/services/payment_reconciliation.py:973-1057 | a whole reconciliation, others committing between its transactions, checks, claims, reads the row, takes the course its answers decide and settles a failure, each stage once, so with one create call at most, and ends over |
| SubscriptionLock.RunKeepsWorld | src/infrastructure/services/subscription_mutation_lock.py:28-120 | the key's history stays ordered and without overlap, and every session agrees with it, on all runs |
| SubscriptionLock.HistoryIsTrue | src/infrastructure/services/subscription_mutation_lock.py:40-47 | at every instant the history names as owner exactly the token that the Redis key holds |
| SubscriptionLock.PastIsKept | src/infrastructure/services/subscription_mutation_lock.py:54-72 | no action changes who owned the key in the past |
| SubscriptionLock.NormalExitOwnedThroughout | src/infrastructure/services/subscription_mutation_lock.py:28-120 | a hold that exits normally owned the key at every instant from its acquisition to the ownership check after its body |
| SubscriptionLock.NormalBodiesAreDisjoint | src/infrastructure/services/subscription_mutation_lock.py:28-120 | the bodies of two holds that both exit normally never overlap in time |
| SubscriptionLock.CompletedIff | src/infrastructure/services/subscription_mutation_lock.py:80-97 | a body counts as completed if and only if no heartbeat failed and the key still holds this token |
| SubscriptionLock.NormalIff | src/infrastructure/services/subscription_mutation_lock.py:98-115 | the exit is normal if and only if the body completed and the release finds the holder's own token |
| SubscriptionLock.OnlyTheOwnerTouchesTheKey | src/infrastructure/services/subscription_mutation_lock.py:103-107 | while somebody holds the key nobody else extends or releases it, expired holders included |
| SubscriptionLock.AcquireIff | src/infrastructure/services/subscription_mutation_lock.py:41-49 | the key is taken for 300 seconds, by a session of depth one, exactly when the history names no owner; otherwise nothing changes |
| SubscriptionLock.BeatIff | src/infrastructure/services/subscription_mutation_lock.py:53-72 | a heartbeat gives its holder another 300 seconds from now; one whose key names another token, or none, flags the lost lease and changes nothing else |
| SubscriptionLock.FinishIff | src/infrastructure/services/subscription_mutation_lock.py:80-97 | the end of the body is noted with the time of its ownership check, as completed exactly when no heartbeat failed and the key names this token |
| SubscriptionLock.CloseIff | src/infrastructure/services/subscription_mutation_lock.py:98-111 | cleaning up, a holder whose key still names it goes on to the release and any other ends as lost |
| SubscriptionLock.ReleaseIff | src/infrastructure/services/subscription_mutation_lock.py:105-119 | the release frees the holder's own key and touches no other's; the task is out of its hold either way |
| SubscriptionLock.OutOfTurnIff | src/infrastructure/services/subscription_mutation_lock.py:33-119 | which actions do nothing, exactly; and time changes nothing but the clock |
| SubscriptionLock.NestedHoldsStayLocal | src/infrastructure/services/subscription_mutation_lock.py:33-39 | entering again and leaving touch only the depth, never Redis, and undo each other |
| SubscriptionLock.OneSessionPerTask | src/infrastructure/services/subscription_mutation_lock.py:33-49 | a task has one outermost hold at a time and does not acquire while it has one |
| SubscriptionLockService.RedisSubscriptionMutationLock.TryAcquire | src/infrastructure/services/subscription_mutation_lock.py:40-49 | the key is taken exactly when it is free |
| SubscriptionLockService.RedisSubscriptionMutationLock.AcquireBlocking | src/infrastructure/services/subscription_mutation_lock.py:40-49 | the lock is tried before every wait and after the last, until it is acquired; without success every wait was used and nothing is kept |
| SubscriptionLockService.RedisSubscriptionMutationLock.ReleaseKey | src/infrastructure/services/subscription_mutation_lock.py:99-115 | only an unexpired key of this token is deleted |
| SubscriptionLockService.RedisSubscriptionMutationLock.Hold | src/infrastructure/services/subscription_mutation_lock.py:28-120 | an outermost hold is exactly its tries, its body, the two ownership checks and the release; it times out, exits normally, loses the lock or raises as the run decides, and a normal exit means ownership throughout its body; a nested one only enters and leaves |
| SendSlot.Interval | src/infrastructure/services/email_delivery_lock.py:106-108 | the interval is 60000/rate milliseconds rounded up |
| SendSlot.GapsRespectTheEarlierInterval | src/infrastructure/services/email_delivery_lock.py:16-30 | under mixed rates every gap between grants is at least the earlier grant's interval, across key expiry too |
| SendSlot.AtMostRatePerMinute | src/infrastructure/services/email_delivery_lock.py:16-30 | with one rate r every half-open 60-second window of server time holds at most r grants |
| SendSlot.WaitIsExact | src/infrastructure/services/email_delivery_lock.py:16-30 | the wait the script answers is exact: the slot is due after it and not a millisecond before, unless someone else takes it |
| SendSlot.EmailPacing.ReserveSlot | src/infrastructure/services/email_delivery_lock.py:16-30 | the script grants the slot or answers how long to wait and changes nothing |
| SendSlot.EmailPacing.WaitForSendSlot | src/infrastructure/services/email_delivery_lock.py:93-131 | the loop terminates: it asks, sleeps exactly as long as it is told, and asks again; it is granted a slot of its own exactly when told to wait no longer, and gives up exactly when the wait it is told ends after the deadline; at most one poll per millisecond of patience |
| RefreshTokens.RecordRoundTrip | src/infrastructure/redis/auth.py:88-99 | a printed record is read back, for all users and versions |
| RefreshTokens.ParseIff | src/infrastructure/redis/auth.py:92-107 | a value is read as a record if and only if it is the version tag and two colon-free fields that are integers, and as those |
| NumberSpelling.ParseIntIff | src/infrastructure/redis/auth.py:97-97 | the integers a record's fields are taken for: white space, sign, and digits with single underscores between them, exactly |
| RefreshTokens.IndexedIff | src/infrastructure/redis/auth.py:57-64 | the consuming script takes a user from a value if and only if it is a record with two plain numbers, or a bare number |
| RefreshTokens.IndexedUserIff | src/infrastructure/redis/auth.py:51-65 | the consuming script finds the user of a stored record if and only if user and version are not negative |
| RefreshTokens.RunKeeps | src/infrastructure/redis/auth.py:41-74 | every live token is listed in its user's live index, whose expiry is at most half a second earlier, or expires within half a second |
| RefreshTokens.AlignedRunKeeps | src/infrastructure/redis/auth.py:41-49 | with stores on whole seconds every live token is listed and its index never expires earlier |
| RefreshTokens.RevokeAllRevokes | src/infrastructure/redis/auth.py:193-203 | after revoke-all no earlier token of the user is accepted half a second later or ever after |
| RefreshTokens.RevokeAllRevokesAtOnce | src/infrastructure/redis/auth.py:193-203 | with stores on whole seconds none is accepted at all |
| RefreshTokens.StoreFallsShortIff | src/infrastructure/redis/auth.py:41-49 | a store leaves the index ending before its new token if and only if the index is live and ends less than the token's lifetime from now, but by no more than half a second |
| RefreshTokens.RevokeAllMissesIff | src/infrastructure/redis/auth.py:41-74 | revoke-all misses a live token if and only if its store fell short so, no later store extended the index before it ended, and it has ended |
| RefreshTokens.RevokeAllCanMiss | src/infrastructure/redis/auth.py:41-74 | that happens: a run from the empty store in which a TTL is rounded up |
| RefreshTokens.RevokeAllSparesOthers | src/infrastructure/redis/auth.py:67-74 | other users' tokens are accepted exactly as before |
| RefreshTokens.ConsumedOnce | src/infrastructure/redis/auth.py:51-65 | each stored token is consumed at most once and never accepted after that |
| RefreshTokens.ConsumeUnlists | src/infrastructure/redis/auth.py:51-65 | consuming takes the token, and no other, off its user's index |
| RefreshTokens.StoreIff | src/infrastructure/redis/auth.py:41-49 | a stored token lives for its lifetime and its user's live index lists it besides what it listed; the index's expiry moves exactly when its rounded TTL is below the lifetime |
| RefreshTokens.ConsumeIff | src/infrastructure/redis/auth.py:51-65 | a live token is consumed and taken off the live index its record names, an index without a member is gone, and nothing else changes; a token that is not live changes nothing |
| RefreshTokens.RevokeAllIff | src/infrastructure/redis/auth.py:67-74 | revoke-all deletes exactly the tokens the user's live index lists, and the index |
| RefreshTokens.AcceptedForItsLifetime | src/infrastructure/redis/auth.py:41-49 | unless it is consumed or its user's tokens are revoked, a stored token is accepted with its record up to the end of its lifetime and no longer, whatever else happens |
| RefreshTokens.KnownRecord | src/infrastructure/redis/auth.py:88-89 | the record of user 42 and version 7 is v1:42:7 |
| RefreshTokens.RedisAuthRepository.StoreRefreshToken | src/infrastructure/redis/auth.py:106-123 | a stored token is accepted with its record; a ttl that is not positive stores nothing |
| RefreshTokens.RedisAuthRepository.GetAndRevoke | src/infrastructure/redis/auth.py:160-191 | hands back the record exactly when the token was accepted, and the token is not accepted afterwards; a legacy record is removed but never accepted |
| RefreshTokens.RedisAuthRepository.RevokeAllUserTokens | src/infrastructure/redis/auth.py:67-74 | deletes every listed token and the index, and counts them |
| Pricing.HalfEvenIsNearest | src/application/services/pricing.py:118-118 | the rounding picks the nearest integer, the even one of two, and nothing else meets that description |
| Pricing.RulesGrow | src/application/services/pricing.py:109-126 | the currency rules are monotone |
| Pricing.RulesAreIdempotent | src/application/services/pricing.py:109-126 | applying the rules twice is applying them once |
| Pricing.RulesAre | src/application/services/pricing.py:109-126 | whole units of XTR and RUB, rounded down but at least one; the nearest whole cents of USD, ties to even, but at least one |
| Pricing.FinalIs | src/application/services/pricing.py:54-56 | below a full discount the final amount is the price less its share, after the rules |
| Pricing.ParsedIsSettled | src/application/services/pricing.py:92-107 | parsing fails exactly for negative amounts, gives zero exactly for zero, and its results parse to themselves |
| Pricing.SettledIff | src/application/services/pricing.py:109-126 | the prices the rules accept unchanged are exactly the whole units of XTR and RUB and the whole cents of USD |
| Pricing.FinalAtMostOriginal | src/application/services/pricing.py:24-69 | the final amount never exceeds the original |
| Pricing.FinalAtMostOriginalIff | src/application/services/pricing.py:24-69 | for other prices, it stays within the original at every discount if and only if the rules do not raise the price |
| Pricing.FinalFallsWithDiscount | src/application/services/pricing.py:49-58 | a larger discount never costs more |
| Pricing.FinalGrowsWithPrice | src/application/services/pricing.py:24-69 | a dearer price never ends up cheaper |
| Pricing.FreeIff | src/application/services/pricing.py:38-58 | the final amount is zero if and only if the price is zero or the discount reaches 100 |
| Pricing.NothingOffIff | src/application/services/pricing.py:58-69 | discount 0 is reported if and only if nothing was taken off; otherwise the discount in force |
| Pricing.PricesAreRecoverable | src/application/services/payment_recovery_snapshot.py:129-139 | every computed price satisfies the recovery parser's pricing check |
| Pricing.EffectiveDiscountIsTheLargest | src/application/services/pricing.py:15-22 | the effective discount is the larger of those there are, capped at 100, and zero if there is none |
| Pricing.FullDiscountAlwaysPrices | src/application/services/pricing.py:71-90 | a duration fails to price if and only if the currency has no price and the discount is below 100; at 100 it is free |
| Pricing.PricedInItsCurrency | src/application/services/pricing.py:71-90 | a duration is priced at its first price in the currency |
| Pricing.FallsBackToTheFirst | src/application/services/pricing.py:80-86 | a full discount on a duration without a price in the currency shows its first price, or zero |
| Base64.DecodeEncoded | src/application/services/payment_cursor.py:204-205 | decoding undoes the unpadded base64url encoding, whose length is as computed |
| Base64.SurvivesIff | src/application/services/payment_cursor.py:157-176 | a text survives decoding and encoding again if and only if it is canonical: a possible length and no stray bits |
| Base64.KnownEncodings | src/application/services/payment_cursor.py:204-205 | the test vectors of section 10 of RFC 4648 without padding |
| Calendar.FromInstant | src/application/services/payment_cursor.py:130-138 | an instant has a UTC date exactly when it lies in years 1 to 9999, and that date is a valid one of that instant |
| Calendar.InstantsDiffer | src/application/services/payment_cursor.py:130-138 | two valid dates of one instant are equal |
| Calendar.ParseIsoIff | src/application/services/payment_cursor.py:141-154 | the accepted date texts are exactly the 32-character texts of valid UTC dates, each read as its own date |
| Calendar.IsoShape | src/application/services/payment_cursor.py:58-60 | where year, month, day, time and microseconds stand in the text of a date |
| FlatJson.ReadPrintedObject | src/application/services/payment_cursor.py:179-201 | every compactly printed object of plain strings and integers is read back member by member |
| JsonSpelling.ReadObjectIff | src/application/services/payment_cursor.py:179-201 | a text is read as these members if and only if the grammar of flat JSON objects spells it so: white space, escapes, numbers, commas and braces included |
| Cursor.EnvelopeAcceptedIff | src/application/services/payment_cursor.py:157-176 | the envelope decoder accepts exactly the canonical texts of 33 to 288 bytes |
| Cursor.CursorRoundTrip | src/application/services/payment_cursor.py:53-114 | an encoded cursor decodes to its user, id and the same instant in UTC, is at most 144 characters long, and is refused for anyone else |
| Cursor.EncodesIff | src/application/services/payment_cursor.py:53-56 | encoding fails exactly for ids outside 1..2147483647 and dates without a place in UTC |
| Cursor.CursorsDiffer | src/application/services/payment_cursor.py:53-72 | different users, ids or instants have different cursors |
| Cursor.AcceptedIsSigned | src/application/services/payment_cursor.py:74-114 | what is accepted is canonical, addressed to its reader, valid, and carries the MAC of its own payload |
| Cursor.OneSpelling | src/application/services/payment_cursor.py:74-114 | a cursor with a payload that encode signs is accepted if and only if it is the very text encode gives out |
| Cursor.PayloadLooksLike | src/application/services/payment_cursor.py:58-71 | the signed payload, letter by letter: compact JSON with members c, i, u and v in order |
| Cursor.FromBytesIff | src/application/services/payment_cursor.py:179-186 | bytes are read as a text exactly when they are its bytes, and as none exactly when one of them is not below 128 |
| Cursor.DecodePayloadIff | src/application/services/payment_cursor.py:82-107 | a payload is accepted for a cursor if and only if it is an object of exactly the members that encode writes for it, each once, in any order |
| DecimalText.DecimalRoundTrip | src/application/services/payment_recovery_snapshot.py:94-101 | every decimal's text is read back with its sign, digits and exponent |
| DecimalText.KnownDecimals | src/application/services/payment_recovery_snapshot.py:48-52 | Python's own spellings, plain and scientific |
| DecimalText.KnownValues | src/application/services/payment_recovery_snapshot.py:94-101 | the number a decimal stands for: its signed digits, times ten for each exponent |
| NumberSpelling.ReadDecimalIff | src/application/services/payment_recovery_snapshot.py:94-101 | a text is taken for a decimal if and only if it spells it: sign, digits, point, exponent; underscores and outer white space apart |
| UuidText.UuidRoundTrip | src/application/services/payment_recovery_snapshot.py:151-156 | every UUID's text is read back |
| UuidText.UuidShape | src/application/services/payment_recovery_snapshot.py:63-64 | thirty-two digits in groups of eight, four, four, four and twelve |
| NumberSpelling.ReadUuidIff | src/application/services/payment_recovery_snapshot.py:151-156 | a text is taken for a UUID if and only if 32 characters are left without its prefixes, braces and dashes, and they spell that number in base 16 |
| NumberSpelling.ReadHexIff | src/application/services/payment_recovery_snapshot.py:151-156 | the base-16 numbers: white space, sign, prefix, and digits with single underscores between them, exactly |
| NumberSpelling.StripBracesIff | src/application/services/payment_recovery_snapshot.py:151-156 | stripping takes off the braces at both ends and nothing else |
| Snapshot.SnapshotRoundTrip | src/application/services/payment_recovery_snapshot.py:29-200 | the snapshot of a transaction is read back if and only if it is its owner's and the transaction is recoverable; the result is the pending transaction with the same fields, and matches the original |
| Snapshot.BuildsIff | src/application/services/payment_recovery_snapshot.py:29-67 | building fails exactly for a name outside its enumeration |
| Snapshot.AcceptedIsStable | src/application/services/payment_recovery_snapshot.py:104-200 | whatever is accepted is recoverable and is given back by its own snapshot |
| SnapshotSpelling.AcceptedIff | src/application/services/payment_recovery_snapshot.py:104-200 | a JSON value is accepted for a transaction if and only if it spells it field by field, under version 1 and for its owner, and the transaction is recoverable |
| SnapshotSpelling.BuiltSpells | src/application/services/payment_recovery_snapshot.py:29-67 | what the service builds spells the transaction it was built from |
| Snapshot.ShapeIsExact | src/application/services/payment_recovery_snapshot.py:110-121 | a snapshot or plan with a field too many or too few is refused |
| Snapshot.ComputedPricesAreRecoverable | src/application/services/payment_recovery_snapshot.py:138-139 | prices computed from parsed prices pass the parser's check |
| Snapshot.ComputedPricesAreDecimals | src/application/services/pricing.py:24-69 | every price computed from a parsed price has decimal amounts, and so a snapshot |
| Activity.CappedSetIsHistoryTop | src/infrastructure/redis/activity.py:17-21 | however adds and trims interleave, the 200 best entries are the 200 most recently touched users of the full history, if no user is touched at an earlier time than before |
| Activity.HistoryIsLastTouches | src/infrastructure/redis/activity.py:17-21 | the full history lists exactly each user's last touch, ranked |
| Activity.RecentIdsAreTrue | src/infrastructure/redis/activity.py:23-31 | reading gives the first non-excluded users of the full history whenever limit plus exclusions is at most 200 |
| Activity.RedisActivityRepository.Touch | src/infrastructure/redis/activity.py:17-21 | a touch, others acting between its two commands, is a run of the machine and leaves at most 200 entries |
| Activity.RedisActivityRepository.GetRecentIds | src/infrastructure/redis/activity.py:23-31 | reads enough entries, filters them in order, and keeps the first limit |
| TelegramHtml.BalancedIff | src/infrastructure/services/channel_render.py:58-121 | the rendered HTML is balanced if and only if every end of a link seen with a link on the stack pops a link or an ignored tag |
| TelegramHtml.NestedInputIsBalanced | src/infrastructure/services/channel_render.py:58-121 | properly nested input renders to balanced HTML |
| TelegramHtml.MisnestedLinkIsUnbalanced | src/infrastructure/services/channel_render.py:85-98 | badly nested input need not: a link's end can swallow the closing of a bold text |
| TelegramHtml.TextIsKept | src/infrastructure/services/channel_render.py:100-102 | all text appears in order, as it is in the plain text and escaped in the HTML, and no other text does |
| TelegramHtml.TagsAreKept | src/infrastructure/services/channel_render.py:58-83 | every tag asked for is opened, in order, and no other: each of Telegram's names as its own tag, each link with its own target |
| TelegramHtml.EscapedIsSeen | src/infrastructure/services/channel_render.py:100-102 | a reader of HTML sees escaped text as it was written |
| TelegramTree.TreeIsRendered | src/infrastructure/services/channel_render.py:58-121 | a properly nested tree renders to itself: every element's tag around its contents, every link's target around its words and, unless a mail address, after them in plain text |
| TelegramHtml.EscapedHasNoMarkup | src/infrastructure/services/channel_render.py:100-102 | in escaped text every angle bracket belongs to a line break |
| TelegramHtml.EscapeIsInjective | src/infrastructure/services/channel_render.py:100-102 | different texts have different escapings |
| TelegramHtml.HtmlParser.HandleStartTag | src/infrastructure/services/channel_render.py:58-83 | the method is the machine's start of a tag |
| TelegramHtml.HtmlParser.HandleEndTag | src/infrastructure/services/channel_render.py:85-98 | the method is the machine's end of a tag |
| TelegramHtml.HtmlParser.RenderEvents | src/infrastructure/services/channel_render.py:111-121 | feeding and closing leaves no tag open, keeps all text, and is balanced exactly for clean input |
| ReferralGraph.Descendants | src/infrastructure/database/referral_graph.py:24-35 | the recursive query finds exactly the users that a chain of one or more referrals leads to, and terminates on cyclic graphs |
| ReferralGraph.PathCount | src/infrastructure/database/referral_graph.py:36-40 | the count is 1 if a path exists and 0 otherwise |
| ReferralGraph.AttachKeepsAcyclicIff | src/application/use_cases/referral/commands/attachment.py:71-80 | a new referral keeps the graph acyclic if and only if nobody refers himself and no path leads the other way |
| ReferralGraph.ReferralStore.Attach | src/application/use_cases/referral/commands/attachment.py:40-104 | an attachment is made exactly when the user has no referrer yet and the graph stays acyclic; otherwise nothing changes |
| Feed.FeedPage | src/infrastructure/services/notification_channels.py:441-477 | a page holds the largest visible ids below the bound in decreasing order, and its continuation is absent exactly when nothing is left |
| Feed.ReadAll | src/infrastructure/services/notification_channels.py:441-477 | following the continuations visits every visible item exactly once in strictly decreasing order and ends, in as few pages as possible |

## Left out

- Data-access concerns beyond the guarded updates: account merges and the locking of a row's owner, row locks (a locked row is an input), alerts about manual operations, batch limits of sweeps (the swept rows are an input).
- I/O: gateway, SMTP, Web Push and Telegram transports, translation, dependency injection and logging. Their answers are inputs.
- Cryptography: hashes and MACs are functions with the stated output size; nothing is claimed about forging them.
- The network effect of sending: the outbox may resend after a lease expires, and a recall does not stop what is being sent; only recorded outcomes are modelled.
- Enqueueing: which rows a message makes and their rendering are inputs of the enqueue action; the unique dedupe key is modelled.
- Web Push failure counts: whether a device has reached its limit is part of the answer, and a push batch's recording transaction is several actions in a row.
- YooKassa request validation: whether the stored request is valid is one bit of it.
- PaymentService.PaymentOperations.Reconcile: a lost connection anywhere is a failure of the attempt at one of its two provider calls; a lock timeout inside a database transaction is not modelled.
- OutboxService.NotificationChannels.Recall: the feed items it hides and the e-mails it counts are left out.
- SubscriptionLock: one user's key is modelled; different users' keys do not interact. That the heartbeat runs often enough to keep the lease is not claimed.
- SendSlot.EmailPacing.WaitForSendSlot: the caller's clock is in whole milliseconds; the run lock around the loop is not modelled.
- Pricing.ParsedIsSettled: starts from the number a text denotes; reading decimal text, infinite and not-a-number amounts and the decimal context's 28 digits are left out.
- Snapshot.SnapshotRoundTrip: amounts are finite and their exponents unbounded, texts are ASCII, and the traffic-limit strategies are the five names the repository uses.
- RefreshTokens.RecordRoundTrip: `int` is modelled on ASCII text.
- TelegramHtml.TextIsKept: tokenising, `safe_link`'s URL parsing, joining the parts and the final white-space normalisation are left out.
- ReferralGraph.ReferralStore.Attach: both users exist; the database trigger that repeats the check on canonical accounts is left out.
- Feed.ReadAll: no item is added or deleted while reading.
- Password-reset and e-mail-code keys, unsubscribe tokens, source statistics, permission tables and configuration checks: settled by reading one branch each.
