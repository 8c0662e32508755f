# Custody wallet service: verified model

The service keeps wallets of six kinds (MULTISIG, SSS, KMS, BACKEND_SEC, MPC, POLICY_GUARD) for its users and sends
withdrawals from them. A withdrawal is a row in one table; once it may be executed it also has a row in a queue that any
number of worker processes poll. Admins approve or reject MULTISIG withdrawals, a scheduler expires them, settlement
polls follow the MPC provider, and a script deletes wallets. This project models these actors as one transition system,
models the main services as the imperative code they are, and proves what holds over every run. It also models the
KMS signing path, the PolicyVault contract under re-entrant calls, and the encryption of wallet keys at rest.

## How it is built

* `Domain`, `Pipeline`: the entities and the transition system. A step is one database statement, one
  `$transaction`, or one move of the outside world; any number of processes interleave. The next statement of a
  worker goes through, throws, or does not happen because the process dies (`Op`). A request, its queue row, its
  approvals and its audit rows form one `Cell`; a ghost-like `History`, read by no code, counts executions
  started, results returned, statements that threw after a result ("late faults") and crashes.
* `CellInvariant`, `LocalSteps`, `OtherSteps`, `RunInvariant`, `StepInvariant`, `Guarantees`: the inductive invariant,
  by rely/guarantee on one request at a time: what a request satisfies, what a process in the middle of its work relies
  on, what each step guarantees to the others; then the lifting to all requests and processes, and to every run.
* `ExecutionTheorems`, `SssTheorems`, `RetryTheorems`, `QueueTheorems`, `ApprovalTheorems`, `WithdrawTheorems`,
  `IdempotencyTheorems`, `Ownership`, `Witnesses`: the results about runs, and concrete runs that show where a guarantee ends.
* `Backend`, `WorkerService`, `AdminService`, `SettlementService`, `ExpirationScheduler`, `WalletService`,
  `CleanupScript`: the services as classes that change the tables in place. `Backend.Store` holds the tables and a
  ghost trace; every method is proved to be a step, or a run, of the pipeline (`View() == Run(Initial, trace)`), with
  arbitrary moves of all other processes before each of its statements.
* `KmsSignature`, `KmsNonce`, `KmsService`, `KmsWithdrawals`: signature completion in modular arithmetic, the advisory-lock protocol of
  many senders as a transition system, and one send as imperative code on top of it.
* `VaultCalls`, `PolicyVaultContract`, `PolicyGuardV1`: call trees into the vault, their effect, and the contract itself
  with its storage changed in place and put back on a revert.
* `Base64`, `Envelope`, `SignerService`: the stored form of a private key from provisioning to signing.

A run without late faults on a request is the "quiet" case: every statement after `execute()` returned goes through, or
the process dies. Results that need it say so by `Count(acts, r, LateFault) == 0`; all others hold whatever fails.

## Assumptions

* Each database statement is atomic, each `$transaction` callback is one serializable step, and `reserveNext` is one step
  that takes the eligible job inserted first. Queue rows are created at strictly increasing times (`Job.ticket`).
* There is one clock, and time does not go backwards. The provider never changes a status that maps to CONFIRMED or FAILED.
* A mined transaction has the account's next nonce and stays mined.
* Live processes have distinct ids; the code never reads the `workerId` column, the model only keeps it for the proofs.
* KMS: a call's lock and unlock use the same database session, different calls use different sessions, nobody else sends
  with the key, and the node's pending count includes every transaction it has accepted.
* ECDSA: points are scalars modulo the group order; the x coordinate of the nonce's point is below the group order;
  different keys have different addresses.
* The vault of a POLICY_GUARD wallet keeps the V1 guard, and each execution of a KMS withdrawal is one call of the KMS service.
* AES-256-GCM is given by its contract: opening succeeds exactly on what sealing gives.

## What the proofs found

* A withdrawal can be executed twice: when a statement after a successful `execute()` throws, the catch block schedules
  a retry (`LateFaultRequeues`), and the next poll executes it again (`EligibleIsExecuted`). The number of results is at
  most one more than the number of such faults (`SuccessesBounded`), and the bound is reached, with EXECUTED taken back
  to PROCESSING (`SecondSuccess`). On the third attempt such a fault turns EXECUTED into FAILED (`LateFaultFails`).
* An SSS withdrawal can end FAILED although its transaction was mined: the signed transaction is stripped from the metadata
  before the executor's last statement, so a retry finds none (`FailedThoughMined`). The metadata tell: stripped means
  mined, whatever the status, and a FAILED request that still has its transaction was not mined, unless a receipt was lost
  or somebody else broadcast it (`FailedTells`, `FailedWithTransaction`).
* A blank idempotency key is stored and unique, so a second call with a blank key fails instead of being treated as a call
  without a key (`BlankKey`). A key in use on another wallet is answered with that wallet's request (`OtherWalletsRequest`).
* The EXPIRED write inside `approveWithdraw` and `rejectWithdraw` is rolled back by the exception that follows it; only the
  scheduler expires requests (`ApproveEffect`, `AdminService.ApproveTransaction`).
* The cleanup may delete a settled request whose poll still has an audit row to write (`CleanupCutsAudit`), exactly when
  the rows say that nothing on the wallet is in flight (`CleanupTakesIff`). Its post-checks fail after a commit without any concurrent write
  exactly when the protected user does not exist (`ExecuteCleanup`).
* The parity search fails on a genuine signature exactly when the right parity is 1 and the candidate of parity 0, tried
  first, is the point at infinity (`SearchFinds`, `SearchCanFail`); every key has digests with such a candidate
  (`DegenerateDigest`).
* A failed unlock statement leaves the KMS lock with its session and blocks every later send (`StuckUntilSessionEnds`).
* apps/api/README.md line 426 promises up to three retries; the code makes at most three attempts, which is two retries
  (`AtMostThreeExecutions`). The model follows the code.

## Model

| member | source | states |
|---|---|---|
| StepInvariant.StepKeeps | apps/api/src/wallet/withdrawal-worker.service.ts:29-333 | every step of every actor keeps the invariant over both tables, all processes, the queue order, the keys and the chain |
| StepInvariant.Reachable | apps/api/src/wallet/withdrawal-worker.service.ts:29-333 | hence every reachable state has it, whatever fails |
| ExecutionTheorems.AtMostThreeExecutions | apps/api/src/wallet/withdrawal-worker.service.ts:244-307 | in every run, with any number of workers, a request's executor is called at most three times |
| ExecutionTheorems.RetryCounters | apps/api/src/wallet/queue.service.ts:98-127 | attemptCount <= retryCount <= attemptCount + 1 always; both equal and at most 2 when the job can be taken; 3 when DEAD |
| ExecutionTheorems.SnapshotCurrent | apps/api/src/wallet/withdrawal-worker.service.ts:244-256 | the retryCount snapshot the catch block decides on is the row's own current count, and the job's attempt count |
| ExecutionTheorems.SuccessesBounded | apps/api/src/wallet/withdrawal-worker.service.ts:128-244 | execute() returns a result at most once more often than statements after a result throw; at most once in quiet runs |
| ExecutionTheorems.ExecutedOnce | apps/api/src/wallet/withdrawal-worker.service.ts:139-152 | in quiet runs EXECUTED means exactly one result, with the queue row RUNNING or SUCCEEDED |
| ExecutionTheorems.FinalStays | apps/api/src/wallet/withdrawal-worker.service.ts:105-111 | REJECTED and EXPIRED never change; EXECUTED and FAILED never change in quiet runs, in spite of writes by id alone |
| ExecutionTheorems.SettledAsProviderSays | apps/api/src/wallet/mpc-settlement.service.ts:39-151 | in quiet runs a request the provider took over is EXECUTED only if its transfer is Confirmed and FAILED only if that is Failed, Rejected or Cancelled, for a transfer of the row's amount to the row's recipient |
| ExecutionTheorems.ExecutesTheOrder | apps/api/src/wallet/withdrawal-worker.service.ts:128-137 | every execute() call carries the wallet, recipient and amount stored at creation, which passed ownership, OTP and policy checks |
| ExecutionTheorems.GuardDecides | apps/api/src/wallet/execution-router.service.ts:37-58 | behind the V1 guard an order to address zero, of nothing, or above 0.001 ether never succeeds and is never EXECUTED |
| ExecutionTheorems.BroadcastsTheOrder | apps/api/src/wallet/executors/sss.executor.ts:25-38 | what the worker broadcasts is the transaction validated at creation: from the wallet, to the row's recipient, of the row's amount, with the nonce checked then |
| ExecutionTheorems.SssExecutedMeansMined | apps/api/src/wallet/executors/sss.executor.ts:38-75 | an EXECUTED SSS request's own transaction took effect on the chain |
| SssTheorems.StrippedMeansMined | apps/api/src/wallet/executors/sss.executor.ts:38-51 | whatever its status, an SSS request without its signed transaction in the metadata had it mined successfully |
| SssTheorems.FailedTells | apps/api/src/wallet/executors/sss.executor.ts:36-64 | the transaction of a FAILED SSS request took effect if it was stripped; and only then, unless a poll failed between the broadcast and the stripping, or somebody else broadcast it |
| SssTheorems.OneEffectPerNonce | apps/api/src/wallet/wallet.service.ts:886-965 | of all requests' signed transactions for one wallet address and nonce at most one takes effect, whatever the requests' statuses, and it moves its row's amount to its row's recipient |
| Ownership.SoleWorker | apps/api/src/wallet/queue.service.ts:47-78 | no two polls ever work on one request |
| Ownership.OthersDoNotMark | apps/api/src/wallet/withdrawal-worker.service.ts:36-42 | what others do while a poll holds a request counts as no execution, result or fault on it |
| QueueTheorems.FirstComeFirstServed | apps/api/src/wallet/queue.service.ts:58-67 | first reservations happen in insertion order |
| QueueTheorems.BoundedOvertaking | apps/api/src/wallet/queue.service.ts:47-78 | before the t-th queue row is first reserved, the queue makes at most 3 t reservations in total, and that row waits |
| QueueTheorems.ReservationsAreSum | apps/api/src/wallet/queue.service.ts:47-78 | the reservations of a run are those counted on the queue rows |
| QueueTheorems.StepLeaves | apps/api/src/wallet/queue.service.ts:80-144 | only the poll at work, a reservation and the cleanup change a queue row |
| QueueTheorems.AbandonedForever | apps/api/src/wallet/queue.service.ts:58-67 | a job left RESERVED or RUNNING by a dead poll is never reserved again and its row never changes |
| QueueTheorems.StepLevel | apps/api/src/wallet/withdrawal-worker.service.ts:244-307 | every step on a job lowers a measure of attempts left and stage, and no other step raises it |
| QueueTheorems.WorkEnds | apps/api/src/wallet/withdrawal-worker.service.ts:244-307 | at most 60 steps of a whole run take or work on one request, waiting for a receipt aside |
| QueueTheorems.DrainedJobsAreDone | apps/api/src/wallet/withdrawal-worker.service.ts:256-278 | when the queue is drained, a job without crashes is SUCCEEDED or DEAD, DEAD exactly when retryCount is 3, and in quiet runs exactly when the worker failed the request, which then never had a result |
| RetryTheorems.LateFaultRequeues | apps/api/src/wallet/withdrawal-worker.service.ts:244-307 | a fault after a result on the first or second attempt puts the job back for 30 s later, whatever status the request had reached |
| RetryTheorems.LateFaultFails | apps/api/src/wallet/withdrawal-worker.service.ts:256-278 | on the third attempt it makes the request FAILED and the job DEAD, also when the request was EXECUTED |
| RetryTheorems.EligibleIsExecuted | apps/api/src/wallet/withdrawal-worker.service.ts:36-137 | a job that waits and whose time has come is executed by the next poll, if no job inserted before it waits in the same way |
| RetryTheorems.RetriesWait | apps/api/src/wallet/queue.service.ts:58-127 | a job that was put back for a retry is reserved again at least 30 s later, by whichever poll |
| RetryTheorems.ExecutionsSpaced | apps/api/src/wallet/withdrawal-worker.service.ts:128-307 | two executor calls of one request are at least 30 s apart in every run, whichever polls make them |
| ApprovalTheorems.QueueRowIffQueued | apps/api/src/wallet/wallet.service.ts:93-116 | a queue row exists exactly for QUEUED, PROCESSING, EXECUTED and FAILED; PENDING, REJECTED and EXPIRED only on MULTISIG; APPROVED never |
| ApprovalTheorems.PollsLeaveUnqueuedAlone | apps/api/src/wallet/withdrawal-worker.service.ts:105-111 | no statement of a worker or settlement poll touches a PENDING, REJECTED or EXPIRED request |
| ApprovalTheorems.OneExit | apps/api/src/admin/admin.service.ts:121-140 | a request leaves PENDING by queueing, rejection or expiry, by one of them only, whatever races |
| ApprovalTheorems.AuditTellsTheExit | apps/api/src/admin/admin.service.ts:199-209 | the audit log never holds two of QUEUED, REJECTED and EXPIRED, and never one that did not happen |
| ApprovalTheorems.ExpiresLate | apps/api/src/wallet/multisig-expiration.scheduler.ts:21-51 | a request is EXPIRED only when its expiresAt is before now |
| ApprovalTheorems.DeadlineIsTenMinutes | apps/api/src/wallet/wallet.service.ts:164-173 | the expiresAt of a MULTISIG request is ten minutes after its insert, for good; no other request has one |
| ApprovalTheorems.AuditOnlyGrows | apps/api/src/wallet/withdrawal-audit.service.ts:9-31 | no step of anybody takes an audit entry away, unless the request is deleted with it |
| ApprovalTheorems.ExecutionNeedsTwoApprovals | apps/api/src/admin/admin.service.ts:87-147 | a MULTISIG request is executed only on exactly two approvals, by two admins, both no later than expiresAt |
| ApprovalTheorems.ApprovalsClosed | apps/api/src/admin/admin.service.ts:64-66 | once a request is queued its approvals never change |
| ApprovalTheorems.ApproveEffect | apps/api/src/admin/admin.service.ts:53-164 | an approval changes the tables if and only if the request is PENDING, now is not past expiresAt, and this admin has not approved it |
| ApprovalTheorems.EverythingAsked | apps/api/src/wallet/wallet.service.ts:535-571 | every request in the tables was asked for by a withdraw call of the run |
| ApprovalTheorems.CreatedByCheckedCall | apps/api/src/wallet/wallet.service.ts:546-571 | by a call of the wallet's owner that passed OTP and policy on the wallet row of that moment; the request still carries that call's wallet, recipient, amount and key |
| WithdrawTheorems.OneRequestPerKey | apps/api/prisma/schema.prisma:135 | interleaved calls never leave two requests with one key |
| WithdrawTheorems.AnswersAgree | apps/api/src/wallet/wallet.service.ts:574-602 | all answered calls with one key are answered with the same request, unless it is cleaned up |
| WithdrawTheorems.AnsweredOnOwnWallet | apps/api/src/wallet/wallet.service.ts:121-124 | with a key used on one wallet only, every answer names a request of that wallet |
| WithdrawTheorems.LoserIsAnswered | apps/api/src/wallet/wallet.service.ts:117-136 | without cleanups, a call that lost the race for its key is answered with the winner's request by its next statement |
| IdempotencyTheorems.CallIsAnswered | apps/api/src/wallet/wallet.service.ts:572-602 | a permitted call with a non-empty key whose statements go through is answered, by its fourth statement at the latest, with a request that has the key, whatever races it |
| IdempotencyTheorems.AllCallsAnsweredAlike | apps/api/src/wallet/wallet.service.ts:88-137 | in a run without cleanups all such calls with one key are answered with the one request that has it, which is on their wallet if the key is used there only |
| WithdrawTheorems.RowsStay | apps/api/prisma/schema.prisma:111-146 | without cleanups no request and no wallet disappears and no key changes |
| WithdrawTheorems.CleanupTakesIff | apps/api/scripts/cleanup-non-test-wallets.ts:472-529 | while a poll works on a request, some cleanup can delete it if and only if it is EXECUTED or FAILED, its job is SUCCEEDED, nothing on its wallet is in flight, and the owner is not protected |
| WithdrawTheorems.CleanupAllOrNothing | apps/api/scripts/cleanup-non-test-wallets.ts:433-529 | it deletes all its targets or nothing, and leaves everything of protected owners and of other wallets as it was |
| WithdrawTheorems.RequestAlwaysFound | apps/api/src/wallet/withdrawal-worker.service.ts:44-57 | up to the write of the outcome a poll always finds its request, and no cleanup can take it: REQUEST_NOT_FOUND is unreachable |
| Witnesses.SecondSuccess | apps/api/src/wallet/withdrawal-worker.service.ts:139-152 | a run with two results, one late fault, and EXECUTED left |
| Witnesses.FailedThoughMined | apps/api/src/wallet/executors/sss.executor.ts:41-64 | a run without late faults in which an SSS request is FAILED though its transaction was mined |
| Witnesses.FailedWithTransaction | apps/api/src/wallet/executors/sss.executor.ts:38-51 | a run in which lost receipts leave a FAILED request with its signed transaction, though that was mined |
| Witnesses.CleanupCutsAudit | apps/api/src/wallet/withdrawal-worker.service.ts:152-180 | a run in which a cleanup deletes a request before its poll has written the outcome's audit row |
| Backend.Store.Others | apps/api/src/wallet/withdrawal-worker.service.ts:22-27 | whatever other processes do between two statements, a poll stays where it is and nobody else executes its request |
| Backend.Store.Take | apps/api/src/wallet/queue.service.ts:47-78 | the reservation marks the chosen job RESERVED for this poll and changes no other row |
| Backend.Store.Note | apps/api/src/wallet/withdrawal-audit.service.ts:9-31 | an audit row is appended to exactly this request, if it still exists, and the caller is answered after the last one |
| WorkerService.QueueService.ReserveNext | apps/api/src/wallet/queue.service.ts:47-78 | takes the first inserted of the jobs that are waiting, or wait for a retry whose availableAt has come, and none only if there is none; the row becomes RESERVED and nothing else of it changes |
| WorkerService.QueueService.MarkSucceeded | apps/api/src/wallet/queue.service.ts:89-96 | the job is SUCCEEDED, or the poll is in its catch block or over |
| WorkerService.QueueService.MarkDead | apps/api/src/wallet/queue.service.ts:129-144 | the job is DEAD, or the poll is over |
| WorkerService.QueueService.MarkRetry | apps/api/src/wallet/queue.service.ts:98-127 | in spite of the gap between its read and its write, the job waits 30 s with the attempt count that the request row has |
| WorkerService.WithdrawalWorker.Load | apps/api/src/wallet/withdrawal-worker.service.ts:44-57 | the request is found whenever the statement itself does not fail |
| WorkerService.WithdrawalWorker.Execute | apps/api/src/wallet/execution-router.service.ts:21-82 | a result counts once, and is EXTERNAL_PENDING exactly for MPC wallets |
| WorkerService.WithdrawalWorker.DirectExecute | apps/api/src/wallet/execution-router.service.ts:28-68 | for all but SSS wallets: a result exactly if nothing fails and a POLICY_GUARD order is within the guard's limits; for MPC a new transfer of the order at the provider |
| WorkerService.WithdrawalWorker.SssRead | apps/api/src/wallet/executors/sss.executor.ts:25-34 | goes on exactly if nothing fails and the row has a signed transaction |
| WorkerService.WithdrawalWorker.SssWait | apps/api/src/wallet/executors/sss.executor.ts:39 | goes on only when the transaction was mined successfully; when nothing fails it throws only if that was reverted |
| WorkerService.WithdrawalWorker.SssExecute | apps/api/src/wallet/executors/sss.executor.ts:20-75 | when nothing fails an SSS execution ends with its result, unless no transaction was stored, that was reverted, or it is not mined |
| WorkerService.WithdrawalWorker.RecordOutcome | apps/api/src/wallet/withdrawal-worker.service.ts:139-220 | EXECUTED for a transaction on the chain, PROCESSING with the provider's id for an external transfer |
| WorkerService.WithdrawalWorker.AuditOutcome | apps/api/src/wallet/withdrawal-worker.service.ts:164-203 | the outcome is in the audit log, for KMS wallets with its second row |
| WorkerService.WithdrawalWorker.TryBlock | apps/api/src/wallet/withdrawal-worker.service.ts:128-244 | one execution at most, reported truly; a throw anywhere in the block leads to the catch block; without failures the request is executed, and with a result if there is one |
| WorkerService.WithdrawalWorker.CountAttempt | apps/api/src/wallet/withdrawal-worker.service.ts:245-301 | the request row counts the attempt, and is FAILED when it was the third |
| WorkerService.WithdrawalWorker.CatchBlock | apps/api/src/wallet/withdrawal-worker.service.ts:244-307 | retries after the first two attempts and gives up after the third, without a further execution; it stops short only if a statement fails or the request was deleted |
| WorkerService.WithdrawalWorker.Work | apps/api/src/wallet/withdrawal-worker.service.ts:42-329 | the same for the part of a poll that has a job |
| WorkerService.WithdrawalWorker.Poll | apps/api/src/wallet/withdrawal-worker.service.ts:29-333 | one poll is a run of the pipeline under any interference and failures; it restores isProcessing, and adds exactly the executions and results that it reports while it holds the job; without failures it executes the job it takes, and takes none only if none is eligible |
| AdminService.FindApproval | apps/api/src/admin/admin.service.ts:87-96 | finds whether this admin has approved before |
| AdminService.ApproveCallback | apps/api/src/admin/admin.service.ts:54-164 | the callback's outcome on its own copy, with each refusal exactly when its reason holds; the deadline is passed when expiresAt is before now; after the EXPIRED write it throws |
| AdminService.RejectCallback | apps/api/src/admin/admin.service.ts:219-274 | the same for the rejection |
| AdminService.AdminService.ApproveTransaction | apps/api/src/admin/admin.service.ts:54-164 | commits exactly when the approval is permitted, adding an approval by this admin at this moment, with the second one queueing the request at the end of the queue; answers Expired exactly to a PENDING request past its expiresAt; else every table is as before |
| AdminService.AdminService.ApproveWithdraw | apps/api/src/admin/admin.service.ts:53-216 | the whole call, interleaved: it commits exactly when permitted, and then logs QUEUED once the request is queued |
| AdminService.AdminService.RejectTransaction | apps/api/src/admin/admin.service.ts:219-274 | commits exactly when the rejection is permitted, changing the status only; answers Expired exactly to a PENDING request past its expiresAt; else every table is as before |
| AdminService.AdminService.RejectWithdraw | apps/api/src/admin/admin.service.ts:218-306 | the whole call, interleaved: it commits exactly when permitted, and then logs REJECTED |
| ExpirationScheduler.ExitsLast | apps/api/src/wallet/multisig-expiration.scheduler.ts:40-55 | an expiry, and any other exit from PENDING, lasts whatever happens next |
| ExpirationScheduler.MultisigExpirationScheduler.FindExpired | apps/api/src/wallet/multisig-expiration.scheduler.ts:21-34 | finds exactly the PENDING MULTISIG requests whose expiresAt is before now |
| ExpirationScheduler.MultisigExpirationScheduler.UpdateMany | apps/api/src/wallet/multisig-expiration.scheduler.ts:41-55 | expires the request exactly if it is still PENDING, changing its status only, and changes nothing otherwise |
| ExpirationScheduler.MultisigExpirationScheduler.ExpirePendingMultisigWithdraws | apps/api/src/wallet/multisig-expiration.scheduler.ts:18-78 | what a run reports as expired it expired and stays so; after a complete run everything overdue at its start has left PENDING for good; a run is complete when nothing fails and no row is deleted |
| SettlementService.VerdictLasts | apps/api/src/wallet/mpc-settlement.service.ts:88-151 | a final verdict written on a request lasts in quiet runs, in spite of unguarded writes by others |
| SettlementService.SaidLasts | apps/api/src/wallet/mpc.service.ts:105-159 | a final word of the provider on a transfer holds in every continuation |
| SettlementService.MpcSettlementService.FindPending | apps/api/src/wallet/mpc-settlement.service.ts:39-57 | at most ten snapshots of PROCESSING requests of MPC wallets with a transfer, all of them if there are fewer than ten |
| SettlementService.MpcSettlementService.GetTransferStatus | apps/api/src/wallet/mpc.service.ts:105-159 | CONFIRMED exactly for a Confirmed transfer, FAILED exactly for one that is Failed, Rejected or Cancelled, always the snapshot's own |
| SettlementService.MpcSettlementService.Update | apps/api/src/wallet/mpc-settlement.service.ts:72-151 | writes what the provider said: EXECUTED, FAILED, or no change of status, and the provider's status into the snapshot's metadata, and nothing else |
| SettlementService.MpcSettlementService.Poll | apps/api/src/wallet/mpc-settlement.service.ts:33-183 | restores isProcessing; every final verdict it wrote is the provider's last word on that transfer and stands when it ends; if nothing fails and no row is deleted it settles ten requests, or all there are |
| WalletService.CheckOrder | apps/api/src/wallet/policy-engine.service.ts:5-44 | an order is refused if and only if it breaks ownership, OTP or one of the three policies; each error exactly for the first rule it breaks |
| WalletService.WalletService.LookUp | apps/api/src/wallet/wallet.service.ts:574-602 | a duplicate answer names a request of this wallet with this key; a call goes on, or is refused, only if there is none, and for SSS goes on only with the transaction ordered, which is never refused |
| WalletService.WalletService.Create | apps/api/src/wallet/wallet.service.ts:88-137 | inserts one new request, PENDING for ten minutes on MULTISIG and queued at once otherwise, exactly if the wallet exists and nobody has the key, and ends in a conflict exactly if somebody has a non-empty one |
| WalletService.WalletService.FindConflicting | apps/api/src/wallet/wallet.service.ts:117-136 | after a conflict, answers with the request that has the key, and fails only if it is gone |
| WalletService.WalletService.Withdraw | apps/api/src/wallet/wallet.service.ts:535-602 | refused for its order exactly if that is not permitted; an answer that is no duplicate names a new request with this order and its creation in the audit log, a duplicate the one request with the key; and a permitted call with any key but a blank one is answered when its statements go through and no cleanup runs |
| KmsSignature.NormalizeLowS | apps/api/src/wallet/kms.service.ts:61-66 | the result is low and is s or its negative |
| KmsSignature.NegationSigns | apps/api/src/wallet/kms.service.ts:61-66 | the negated s is again a signature, by the negated nonce |
| KmsSignature.ExactlyOneParity | apps/api/src/wallet/kms.service.ts:89-99 | of the two parities exactly that of the nonce's point recovers the signing key |
| KmsSignature.ExactlyOneLowParity | apps/api/src/wallet/kms.service.ts:231-239 | after normalisation exactly one parity recovers the key: p if s was low, 1 - p if it was negated |
| KmsSignature.WrongCandidate | apps/api/src/wallet/kms.service.ts:90-94 | the other candidate is the point at infinity exactly when twice the digest plus r times the key vanishes |
| KmsSignature.FindMatchingYParity | apps/api/src/wallet/kms.service.ts:80-102 | the loop returns the first parity whose candidate has the expected address, and fails exactly on a candidate without an address or when none has it |
| KmsSignature.SearchFinds | apps/api/src/wallet/kms.service.ts:80-102 | for every genuine signature the search finds the right parity, but for exactly one degenerate case |
| KmsSignature.SearchCanFail | apps/api/src/wallet/kms.service.ts:101 | a genuine signature on which it fails |
| KmsSignature.DegenerateDigest | apps/api/src/wallet/kms.service.ts:215-239 | for every curve, key and nonce there is a digest whose signature is degenerate |
| KmsSignature.CompleteSignature | apps/api/src/wallet/kms.service.ts:231-245 | whatever it returns has a low s and recovers the sender's address; for every genuine signature outside the degenerate case it returns one that recovers the signing key |
| KmsSignature.HexRoundTrip | apps/api/src/wallet/kms.service.ts:57-59 | every number of 32 bytes, hence every r and s, is printed as 0x and 64 digits that read back as it |
| KmsNonce.StepKeeps | apps/api/src/wallet/kms.service.ts:164-254 | every step of every sender keeps the lock and nonce invariant |
| KmsNonce.NoncesHaveNoGaps | apps/api/src/wallet/kms.service.ts:191-209 | the transactions accepted from the key's address carry the nonces 0, 1, 2, ..., each once |
| KmsNonce.OneSender | apps/api/src/wallet/kms.service.ts:164-182 | at most one call is between its lock and its unlock, and it holds the lock |
| KmsNonce.NonceStaysPending | apps/api/src/wallet/kms.service.ts:191-248 | the nonce read under the lock is still the pending one at the broadcast |
| KmsNonce.LockHeldIff | apps/api/src/wallet/kms.service.ts:164-182 | a call has the lock if and only if it is at work, or its unlock failed and its session has not ended |
| KmsNonce.AtMostOneEach | apps/api/src/wallet/kms.service.ts:184-254 | any set of calls has at most as many transactions accepted as it has calls |
| KmsWithdrawals.SendsAtMostThree | apps/api/src/wallet/withdrawal-worker.service.ts:128-137 | a KMS withdrawal has at most three transactions accepted, and at most one more than the attempts its row has counted, executors that throw after their broadcast included |
| KmsNonce.SentAsAsked | apps/api/src/wallet/kms.service.ts:184-254 | each call has at most one transaction accepted, with its own recipient and amount; exactly one if it returns, none if the lock was taken |
| KmsNonce.StuckUntilSessionEnds | apps/api/src/wallet/kms.service.ts:177-181 | after a failed unlock nothing is accepted until that session ends |
| KmsService.KmsService.TryAdvisoryLock | apps/api/src/wallet/kms.service.ts:165-173 | acquires exactly if the lock is free, and otherwise ends the call as busy |
| KmsService.KmsService.GetTransactionCount | apps/api/src/wallet/kms.service.ts:191-195 | reads the first unused nonce |
| KmsService.KmsService.BroadcastTransaction | apps/api/src/wallet/kms.service.ts:247-248 | the transaction accepted has the pending nonce and the call's recipient and amount |
| KmsService.KmsService.AdvisoryUnlock | apps/api/src/wallet/kms.service.ts:177-181 | frees the lock unless the statement fails |
| KmsService.KmsService.SendNativeTransaction | apps/api/src/wallet/kms.service.ts:184-294 | one call under any interference: a returned nonce is its own transaction's, it never has two, it keeps the lock exactly if its unlock failed; it returns exactly if it finds the lock free and nothing fails, and is busy exactly if it finds it taken |
| VaultCalls.Conserves | contracts/contracts/PolicyVault.sol:37-49 | however calls nest, re-enter and revert, a call changes the balance by what it logs |
| VaultCalls.BalanceIsLogged | contracts/contracts/PolicyVault.sol:37-49 | after any outermost calls the balance is the sum of Deposited minus the sum of Withdrawn |
| VaultCalls.PaymentsChecked | contracts/contracts/PolicyVault.sol:41-58 | in every call tree each payment has a recorded check of its own, an acceptance of just this payment by the guard in force when it was asked |
| VaultCalls.ChecksOccur | contracts/contracts/PolicyVault.sol:41-49 | each recorded check was made on a state that the vault went through |
| VaultCalls.EveryPaymentAccepted | contracts/contracts/PolicyVault.sol:41-58 | from deployment on: the k-th Withdrawn of the log was accepted in the k-th check, by the guard in force there, on a state that the vault was in, before it was paid |
| VaultCalls.V1Limits | contracts/contracts/PolicyGuardV1.sol:9-15 | behind an unexchanged V1 guard every payment of any call tree goes to a non-zero address and is at most 0.001 ether |
| VaultCalls.V1Decides | contracts/contracts/PolicyVault.sol:41-49 | behind the V1 guard a withdrawal succeeds if and only if the recipient is not zero, the amount is above 0 and at most 0.001 ether and within the balance, the caller is owner or operator, and the recipient accepts; a refused one changes nothing |
| VaultCalls.OutsidersOnlyPayIn | contracts/contracts/PolicyVault.sol:17-25 | callers other than owner and operator can only pay in, however they nest their calls |
| VaultCalls.OnlyOwnerConfigures | contracts/contracts/PolicyVault.sol:17-76 | whatever all but the owner call, however nested: owner, operator and guard stay, and everything paid was accepted by that guard |
| VaultCalls.OneAfterTheOther | contracts/contracts/PolicyVault.sol:45 | each call runs on what the calls before it left, also when some of those reverted |
| PolicyVaultContract.PolicyVault.constructor | contracts/contracts/PolicyVault.sol:27-35 | a deployed vault holds nothing and has the given roles |
| PolicyVaultContract.PolicyVault.Enter | contracts/contracts/PolicyVault.sol:37-76 | a call on the contract's storage, with everything below it, has the effect of its tree, records the checks behind its payments and conserves value; a revert restores all |
| PolicyVaultContract.PolicyVault.EnterInner | contracts/contracts/PolicyVault.sol:45 | the recipient's re-entrant calls run one after the other on the current storage |
| PolicyVaultContract.PolicyVault.DoWithdraw | contracts/contracts/PolicyVault.sol:41-49 | withdraw pays exactly when the caller, the guard, the balance and the recipient allow it, and then leaves what the recipient's calls on the reduced balance leave, with its event and its check added |
| PolicyVaultContract.PolicyVault.DoSetPolicyGuard | contracts/contracts/PolicyVault.sol:51-58 | succeeds exactly for the owner and a non-zero guard, and then stores that guard and logs the exchange |
| PolicyVaultContract.PolicyVault.DoSetOperator | contracts/contracts/PolicyVault.sol:60-67 | the same for the operator |
| PolicyVaultContract.PolicyVault.DoSetOwner | contracts/contracts/PolicyVault.sol:69-76 | the same for the owner |
| Base64.RoundTrip | apps/api/src/common/crypto/wallet-key-encryption.ts:45 | every sequence of bytes comes back from its base64 |
| Base64.NoColon | apps/api/src/common/crypto/wallet-key-encryption.ts:45 | no colon occurs in base64 |
| Base64.EncodesThree | apps/api/src/common/crypto/wallet-key-encryption.ts:45 | three bytes become the four letters, by the table of RFC 4648, whose values make up the same 24 bits |
| Base64.EncodesLast | apps/api/src/common/crypto/wallet-key-encryption.ts:45 | one or two bytes at the end are filled up with zero bits and padding |
| Base64.DecodesLeniently | apps/api/src/common/crypto/wallet-key-encryption.ts:59-61 | padding ends a text, URL-safe letters stand for the usual ones, other characters are skipped |
| Base64.DecodedLength | apps/api/src/common/crypto/wallet-key-encryption.ts:59-61 | four letters give three bytes, left-over letters no further one |
| Envelope.EncryptionKey | apps/api/src/common/crypto/wallet-key-encryption.ts:12-26 | a key of 32 bytes exactly from a text that is 64 hex digits after trimming, which is the text that the key prints as in lower case; with the error otherwise |
| Envelope.FromHexPrints | apps/api/src/common/crypto/wallet-key-encryption.ts:25 | the bytes read from hex print as that hex, in lower case |
| Envelope.KeysAreDigits | apps/api/src/common/crypto/wallet-key-encryption.ts:18-25 | a configured text is 64 digits with white space around them, and two texts give one key only if their digits agree up to case |
| Envelope.SpacesIgnored | apps/api/src/common/crypto/wallet-key-encryption.ts:18-25 | the white space of ECMAScript around the 64 digits does not matter |
| Envelope.FieldsRoundTrip | apps/api/src/common/crypto/wallet-key-encryption.ts:54-62 | iv, tag and ciphertext of any lengths are split back from the stored text |
| Envelope.StoredText | apps/api/src/common/crypto/wallet-key-encryption.ts:45 | the stored text is the base64 of iv, tag and ciphertext, in this order |
| Envelope.DecryptsWhatWasEncrypted | apps/api/src/common/crypto/wallet-key-encryption.ts:32-82 | for every configured key and every iv, decryption undoes encryption |
| Envelope.DecryptsOnlyEncryptions | apps/api/src/common/crypto/wallet-key-encryption.ts:52-82 | a text decrypts to a key if and only if it has the fields of an encryption of that key |
| Envelope.DecryptionRefuses | apps/api/src/common/crypto/wallet-key-encryption.ts:54-80 | each error exactly for its reason; the last one exactly when the text is no encryption of anything under this key |
| SignerService.SignsExactlyAsAllowed | apps/api/src/wallet/signer.service.ts:94-177 | a wallet gets a signer if and only if it signs locally and the key encrypted in its row, or the shared key when there is none, belongs to its own address |
| SignerService.StoredKeySigns | apps/api/src/wallet/wallet-provision.service.ts:258-279 | a row as provisioning writes it signs with the generated key and the stored address |
| SignerService.WalletProvision.CreateUserWallet | apps/api/src/wallet/wallet-provision.service.ts:237-309 | exactly when it creates, conflicts or fails, also against a racing call; what it stores later signs, and no other row changes |
| CleanupScript.CountKept | apps/api/scripts/cleanup-non-test-wallets.ts:540-547 | deleting targets keeps the number of protected wallets |
| CleanupScript.AnyBusy | apps/api/scripts/cleanup-non-test-wallets.ts:401-414 | finds whether a request of the targets is PENDING, APPROVED, QUEUED or PROCESSING, or its job neither SUCCEEDED nor DEAD |
| CleanupScript.CollectTargets | apps/api/scripts/cleanup-non-test-wallets.ts:98-141 | exactly the wallets of unprotected owners, in order, unless an owner has no email |
| CleanupScript.Revalidate | apps/api/scripts/cleanup-non-test-wallets.ts:379-399 | true exactly if every target still exists and has an unprotected owner |
| CleanupScript.CleanupScript.CollectInventory | apps/api/scripts/cleanup-non-test-wallets.ts:87-262 | the inventory describes the tables, or an owner has no email |
| CleanupScript.CleanupScript.Transaction | apps/api/scripts/cleanup-non-test-wallets.ts:433-529 | commits exactly if everything the inventory found still holds, nulling the inventory's preferences and no others; else nothing changes |
| CleanupScript.CleanupScript.PostChecks | apps/api/scripts/cleanup-non-test-wallets.ts:531-579 | without other writers, exactly when the checks pass |
| CleanupScript.CleanupScript.ExecuteCleanup | apps/api/scripts/cleanup-non-test-wallets.ts:366-586 | one deletion that spares live work, or none, under any interference; without other writers a fresh unblocked inventory is deleted and all checks pass exactly if the protected user exists |
| CleanupScript.CleanupScript.Execute | apps/api/scripts/cleanup-non-test-wallets.ts:588-626 | without other writers, exactly when the script completes; then all wallets left are the protected owner's |

## Left out

- React pages, HTTP controllers, authentication, TOTP internals, throttling, WebSocket messages and log lines. A one-time code is a parameter that is right, wrong or absent.
- The database's weaker isolation levels, and the branch of `approveWithdraw` for a request that another transaction queued in between (admin.service.ts lines 129-140), which needs them.
- The branch for an unsupported wallet type (withdrawal-worker.service.ts lines 59-103): the enumeration has exactly the six supported types.
- ExecutionTheorems.SuccessesBounded: counts results that `execute()` returned; what an executor sent before it threw is a move of the outside world in the pipeline (for KMS wallets see KmsWithdrawals.SendsAtMostThree, for SSS wallets SssTheorems.FailedTells).
- ExecutionTheorems.GuardDecides: in the pipeline the vault is its guard, and its other refusals are an execution that throws (VaultCalls.V1Decides says which they are).
- SssTheorems.OneEffectPerNonce: rests on the chain's nonce rule; fees, gas, replaced and reorganised transactions are not modelled, and the node's nonce that a call compares with is whatever the node says.
- WorkerService.WithdrawalWorker.SssWait: the receipt is polled a bounded number of times given by the caller, after which the process stops; the pipeline itself has no bound.
- WorkerService.WithdrawalWorker.DirectExecute: the refusals of the executors behind the router (no signer, wrong address, too little balance, a vault that reverts) are one statement that fails.
- SettlementService.MpcSettlementService.FindPending: takes the first ten by id; the order by processingAt is not modelled, and the pipeline allows any choice.
- WalletService.WalletService.Withdraw: the texts of amounts and addresses are numbers, addresses being compared without regard to letter case; parsing errors and amounts written with leading zeros are not modelled, and the key is given already trimmed.
- KmsNonce.NoncesHaveNoGaps: a broadcast is one step, taken, refused, or taken with the response lost; one that reaches the node after its process died is not modelled.
- KmsSignature.SearchFinds: x coordinates at or above the group order, DER decoding, hashing and the point arithmetic itself.
- VaultCalls.Conserves: gas, ether forced in without a call, and guards that are not view functions.
- Envelope.DecryptPrivateKey: Node's decoder on malformed base64 is modelled as skipping other characters and stopping at the first padding character; keys are byte sequences, of which the UTF-8 text is one form.
- CleanupScript.CleanupScript.CollectInventory: the inventory's reads are one moment; writes of others between them are not modelled. The dry-run report and its masking of emails and addresses are output only.
- Provisioning of POLICY_GUARD and SSS wallets, whitelist and limit editing other than as a step that replaces both, listings, balances, daily limits, risk scores and the address blacklist.
- The secret sharing of SSS wallets in the browser, the recovery tool and contracts/contracts/PolicyGuard.sol.
