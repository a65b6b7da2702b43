# Proofs about the CRM's payment rail, sessions, tenancy and read models

A Dafny 4.11 model of the core of the CRM, with proofs about it. `dafny verify dfyconfig.toml`
checks everything. Each module follows one part of the system; functions give the meaning of an
operation, classes carry the fields the services update in place and are proved to do what the
functions say, and lemmas say what holds over every run.

## What is modelled

**The stablecoin payment rail** (`PaymentStateMachine`, `Ledger`, `PaymentRail`, `PaymentInvariants`,
`PaymentAudit`, `PaymentSettlement`, `PaymentDeposits`, `PaymentPolling`, `PaymentHistory`,
`PaymentJobs`, `PaymentCases`, `PaymentServices`, `PaymentInterleaving`). Payments, transaction rows,
journal, accounts, audit events and confirmation jobs, moved by intent creation, transfer events,
polls, sweeps, refunds and wallet provisioning in any order. Amounts are integer micro-USDC. Which
pending payment a transfer is matched to, which stale rows a sweep takes, what a poll sees on chain and
where it is interrupted are choices of the run. `PaymentHistory` and `PaymentJobs` say in plain numbers
what every column owes to which calls. `PaymentInterleaving` looks at one payment with every call split
at its reads, writes and commits, any of which may throw.

**Single-flight token refresh in the browser** (`RefreshClient`, `RefreshHistory`): one step is one
turn of the event loop, over any number of requests.

**Refresh-session rotation** (`RefreshSessions`): database statements of concurrent refreshes
interleave; whole requests are shown to be a special case.

**The tenant-scoping query rewriter** (`TenantScope`, `TenantFilters`, `TenantIsolation`): nested
filters with SQL's three truth values, twelve operations of which ten are rewritten, many tables, many
tenants.

**Supporting parts**: ISO week numbers (`IsoWeek`, `IsoWeekExact`), deals, Kanban and forecast
(`Deals`, `DealViews`, `ForecastMargin`), notifications and their unread counter at call level and with
its races (`UnreadCache`, `NotificationRows`, `UnreadInterleaving`, `UnreadBalance`), cache-key texts
(`SearchKeys`, `Texts`), the workflow loop (`Workflows`), batch scoring (`BatchScoring`), pages
(`Pagination`), the prompt's context window (`ContextWindow`).

## Where the code does not do what it says

The model follows the code. Each of these is stated by a lemma. Where a promise fails on some calls
and holds on others, another lemma gives the exact condition:

- `handleTxDetected` and `handleConfirmationUpdate` look a payment up with tenant `''`
  (payments.service.ts:109 and :161), so as written nothing of a named tenant is ever detected or
  settled. The lookup is a parameter of the rail: theorems hold for the lookup as written and for a
  lookup by id.
- The comment at payments.service.ts:204 says the ledger shares the transaction; ledger.service.ts:109
  opens its own. "Exactly once" therefore holds if and only if no poll loses its outer commit behind
  the ledger's.
- An underpaid payment is failed without an event, a second refund is accepted and logged again, and
  an expiry or a failed confirmation writes its status and its event separately, so that the event can
  be lost. The audit trail is a path if and only if none of these happened.
- Status writes do not look at the status they overwrite, so a sweep that read PENDING can expire a
  payment that has been settled since. Which stale writes spoil the bookings or the trail is exact.
- ledger.service.ts:84-85 says the fee lowers Liability; the repository adds to both sides. The stored
  balances satisfy the accounting equation if and only if no fee was booked.
- COMPLETED is listed as terminal and has an exit. Block 0 counts as no block, and polling is bounded
  if and only if the payment was not detected there. A wallet whose account is on one chain cannot
  settle a payment on another.
- transaction-confirmation.worker.ts:174 relies on a job of the same id being replaced, while
  queue.constants.ts:96-98 says the duplicate is dropped. What the queue does is not in the repository,
  so both are modelled: if it drops, a payment whose first poll comes too early is never polled again.
- A logout ends every session of a user for good if and only if no refresh is caught between its delete
  and its create. Two tokens signed for one user in the same second are equal, since the payload holds
  nothing fresh; that does harm if and only if the token has been consumed by a refresh.
- The rewriter replaces a caller's own top-level test of `tenantId`, does not cover `upsert` and
  `findUnique`, and lets `update` and `updateMany` hand rows to another tenant.
- `Date.UTC` takes the years 0 to 99 for 1900 to 1999, so a year is numbered right throughout if and
  only if it is not one of 0 to 100; for the dates of those years the exact condition is given.
- A won or lost deal that is moved back to an ordinary stage keeps its status and never opens again.
- A converted lead's deal has no history, may sit on another pipeline's stage and may have a negative
  value; the forecast then stays within the pipeline if and only if the margin before covers it.
- A deletion of a notification that fails leaves the counter one too low; so do two races. The accesses
  that upset the counter are given exactly, for calls that overlap in any way.
- `processEvent` leaves an execution RUNNING if and only if something throws before its outcome is
  recorded and the exception handler then cannot write FAILED.

## Model

| member | source | states |
|---|---|---|
| PaymentStateMachine.PathsAreShort | crm-backend/src/modules/payments/payment-state-machine.ts:28-35 | Listed transitions have no cycle: any path along them makes at most three moves. |
| PaymentStateMachine.VerdictExactly | crm-backend/src/modules/payments/payment-state-machine.ts:37-58 | The answer for every pair of statuses, written out: which moves pass, which are refused as leaving a terminal status, and which as not listed. |
| Ledger.SettlementEffect | crm-backend/src/modules/ledger/ledger.service.ts:89-147 | Writing a settlement keeps every stored balance equal to the sum of the entries that touch its account, and changes three balances only: Asset by the gross, Revenue by the booked fee, Liability by gross plus fee. |
| Ledger.SettlementEntries | crm-backend/src/modules/ledger/ledger.service.ts:109-142 | All entries a settlement writes belong to its payment, and to no other. |
| Ledger.TrialBalance | crm-backend/src/modules/ledger/ledger.service.ts:83-87 | In any journal of such entries, Asset = Liability + Revenue per tenant and chain, when debits and credits are read with their sides. |
| Ledger.StoredLaw | crm-backend/src/modules/ledger/ledger.repository.ts:83-100 | The stored balances, which add every entry to both accounts, obey Liability = Asset + Revenue instead. |
| Ledger.StoredEquationIffNoFees | crm-backend/src/modules/ledger/ledger.repository.ts:83-100 | The stored balances satisfy the accounting equation exactly while no fee has been booked for the tenant and chain. |
| Ledger.FeeBounds | crm-backend/src/modules/ledger/ledger.service.ts:104-107 | The booked fee is at most 1/200 of the amount exactly when the amount is not negative, and falls short of that share by less than one micro-USDC. |
| Ledger.LedgerStore.Upsert | crm-backend/src/modules/ledger/ledger.repository.ts:33-53 | An existing account is left as it is; a new one is refused exactly when its wallet already has an account. |
| Ledger.LedgerStore.Ensure | crm-backend/src/modules/ledger/ledger.service.ts:49-82 | The whole new chart of accounts, also when the Asset row is refused and the other two remain. |
| Ledger.LedgerStore.Write | crm-backend/src/modules/ledger/ledger.repository.ts:83-116 | One entry appended, and its amount added to both accounts. |
| Ledger.LedgerStore.Settle | crm-backend/src/modules/ledger/ledger.service.ts:89-147 | The self-call happens at most once; the result is the full settlement or only the accounts that were created, and success exactly when the accounts are there and the transaction commits. |
| PaymentInvariants.RowsMove | crm-backend/src/modules/payments/payments.service.ts:102-306 | Any enabled call moves each payment row by a listed transition or not at all, and never changes what was ordered. |
| PaymentInvariants.StepKeepsPayments | crm-backend/src/modules/payments/payments.repository.ts:50-99 | Any enabled call keeps: a hash is held by one payment at most, exactly the payments that reached CONFIRMING hold one, and each is paid for by a transfer on its chain to its address within one unit. |
| PaymentHistory.RowExactly | crm-backend/src/modules/payments/payments.service.ts:102-306 | Any enabled call turns the row of any payment into one of nine, decided by conditions in plain numbers on the state before: short by more than one unit, accepted, more than 300 blocks gone, reverted, blocks counted, completed, timed out, refunded, or untouched. |
| PaymentHistory.HistoryExactly | crm-backend/src/modules/payments/payments.service.ts:102-306 | After any run the status, failure, hash and block of a payment are equivalent to what happened to it: FAILED for underpayment if and only if a transfer more than one unit short was matched to it, holding a hash and block if and only if such a transfer was accepted, and so on for every status. |
| PaymentHistory.MatchedExactly | crm-backend/src/modules/payments/payments.repository.ts:50-58 | A transfer can be matched to a payment if and only if that is pending on its chain, at an address that differs in capitals at most; it goes unmatched if and only if there is none. |
| PaymentHistory.AccountsExactly | crm-backend/src/modules/ledger/ledger.service.ts:49-82 | Once a poll comes as far as the ledger, the liability and revenue accounts are there, the asset account exactly if it could be made, and no others are new, whether the settlement goes through or not. |
| PaymentHistory.GivenUpExactly | crm-backend/src/jobs/workers/transaction-confirmation.worker.ts:88-104 | From any reachable state, a faultless poll without a receipt of a CONFIRMING payment detected in block b > 0 fails it if and only if the chain is higher than b + 300, and otherwise leaves it to be polled again. |
| PaymentHistory.OrderExactly | crm-backend/src/modules/payments/payments.service.ts:61-94 | After any run a payment has the tenant, key, amount, chain and wallet of the call that created it, the address of that wallet, which is its tenant's, an expiry 86,400,000 ms after the call, and 3 required confirmations unless the call named a number. |
| PaymentHistory.CreatedExactly | crm-backend/src/modules/payments/payments.service.ts:61-94 | After any run a call creates a payment if and only if no payment has its key and the wallet is its tenant's; an existing key is answered with the payment to its tenant and with a conflict to any other. |
| PaymentHistory.SweepExactly | crm-backend/src/modules/payments/payments.repository.ts:72-77 | A sweep takes pending payments that were created more than 86,400,000 ms before it and no others, at most 200, and all of them if it takes fewer; it expires what it takes unless the write fails, and touches nothing else. |
| PaymentHistory.SweepMayTake | crm-backend/src/modules/payments/payments.repository.ts:72-77 | Any 200 distinct pending payments past their expiry may make up a sweep, and all of them when there are fewer. |
| PaymentHistory.ExpiredIsLate | crm-backend/src/modules/payments/payments.service.ts:233-251 | After any run a payment is EXPIRED only if a sweep came more than a day after its creation. |
| PaymentJobs.JobExactly | crm-backend/src/jobs/workers/transaction-confirmation.worker.ts:70-180 | From any reachable state, what each call leaves of a payment's confirmation job, in plain numbers: queued by a transfer that is large enough, kept for up to ten attempts when a poll throws, added again when it is too early, and gone otherwise. |
| PaymentJobs.TxExactly | crm-backend/src/jobs/workers/transaction-confirmation.worker.ts:113-156 | What each call leaves of a transaction's row: created once by the first matched transfer, confirmed from the target on, submitted below it, with the blocks counted, and failed when the payment is given up. |
| PaymentAudit.AuditTrail | crm-backend/src/modules/payments/payments.service.ts:124-147 | After any run a payment's events chain from PENDING to its current status by listed transitions if and only if no call of the run was one of four: a transfer that underpays it, a refund when it is already REFUNDED, a sweep that expires it and cannot append the event, a poll that gives it up and cannot append the event. |
| PaymentAudit.CallKeepsTrailWhole | crm-backend/src/jobs/workers/blockchain-events.worker.ts:93-100 | From any reachable state one more call keeps a whole trail whole if and only if it is none of those four calls, each named by what can be seen before the call. |
| PaymentAudit.WholeIsLong | crm-backend/src/modules/payments/payments.service.ts:233-283 | In any reachable state a payment's trail is a path to its status if and only if it has as many events as the longest path to that status. |
| PaymentAudit.TrailIsPath | crm-backend/src/modules/payments/payment-state-machine.ts:28-58 | A trail of the shape every run keeps is a path of listed transitions to the status if and only if it has as many events as the longest path there. |
| PaymentAudit.RunKeepsTrails | crm-backend/src/modules/payments/payments.service.ts:185-201 | Over any run each payment's list of events has a shape fixed by its status: an expired or failed one may lack its event, a refunded one may have more refund events behind the third. |
| PaymentAudit.AtMostThreeChanges | crm-backend/src/modules/payments/payments.service.ts:233-283 | In any run, whatever else happens, a payment's status changes at most three times. |
| PaymentAudit.FinalStatuses | crm-backend/src/modules/payments/payment-state-machine.ts:37-58 | No call changes the status of a payment that is FAILED, EXPIRED or REFUNDED. |
| PaymentSettlement.ExactlyOnce | crm-backend/src/modules/payments/payments.service.ts:156-211 | After any run a payment has its gross entry, and one fee entry iff the fee is positive, exactly when it is COMPLETED or REFUNDED, and none otherwise: if and only if no call of the run lost the commit around its ledger transaction, which is named by what can be seen before the call. |
| PaymentSettlement.CallKeepsBookedOnce | crm-backend/src/modules/payments/payments.service.ts:182-211 | From any reachable state in which a payment is booked once, a call keeps it so if and only if it is not a poll of this payment while it is CONFIRMING and found by the lookup, with a receipt that did not revert, enough confirmations and accounts that exist or can be made, whose outer commit fails. |
| PaymentSettlement.JournalOfPayment | crm-backend/src/modules/payments/payments.service.ts:182-211 | The journal of any run holds a payment's settlement once if it is settled, and once more for each lost outer commit, and nothing else of it. |
| PaymentSettlement.NoLostCommits | crm-backend/src/modules/payments/payments.service.ts:204-211 | A run in which no poll loses its outer commit has no such extra settlement. |
| PaymentSettlement.BooksBalance | crm-backend/src/modules/ledger/ledger.repository.ts:83-135 | After any run, with G the gross and F the fees settled per tenant and chain: the journal gives Asset G, Liability G - F, Revenue F; the stored Liability is G - F plus twice F. |
| PaymentSettlement.TenantBalanceIsGross | crm-backend/src/modules/ledger/ledger.repository.ts:127-135 | The balance reported for a tenant is the gross of its settlements over its three chains. |
| PaymentSettlement.FeesOfGross | crm-backend/src/modules/ledger/ledger.service.ts:104-107 | Total fees are at most 1/200 of the total gross and fall short of it by less than one unit per settlement, when no amount is negative. |
| PaymentSettlement.AsWrittenNothingSettles | crm-backend/src/modules/payments/payments.service.ts:109-161 | With the lookup as the code has it (tenant ''), no payment of a named tenant ever leaves PENDING except by expiry or underpayment, and no ledger entry is written for it, in any run. |
| PaymentSettlement.OrphansAreVisible | crm-backend/src/modules/payments/payments.service.ts:161-176 | Entries without their payment arise only for payments the lookup can see. |
| PaymentDeposits.DepositConservation | crm-backend/src/jobs/workers/blockchain-events.worker.ts:51-110 | Over any run, overall and per deposit address, the payments that reached CONFIRMING expected at most what the distinct transfers brought plus one unit each. |
| PaymentDeposits.AttachedIsDetected | crm-backend/src/modules/payments/payments.service.ts:124-147 | Holding a transaction hash is the same as having the detection event in the trail. |
| PaymentDeposits.CoveredByTransfers | crm-backend/src/modules/payments/payments.repository.ts:60-61 | Because a hash is attached once, what is expected of the first k transfers is at most what those transfers brought, for every k. |
| PaymentPolling.PollingTerminates | crm-backend/src/jobs/workers/transaction-confirmation.worker.ts:70-147 | If the chain grows by a block between polls and a seen receipt stays, a CONFIRMING payment whose job was just queued is polled at most 319 + max(1, target) more times, whatever else runs, whichever polls throw and whatever the queue does with held ids. |
| PaymentPolling.PollingBoundedExactly | crm-backend/src/jobs/workers/transaction-confirmation.worker.ts:90-115 | On a queue that takes the next poll, the polls of a CONFIRMING payment are bounded over all continuations on a growing chain if and only if the payment was not detected in block 0. |
| PaymentPolling.BlockZeroNeverGivesUp | crm-backend/src/jobs/workers/transaction-confirmation.worker.ts:90-115 | A payment detected in block 0 counts as never seen: without a receipt it is rechecked for any number of polls and blocks, as long as the queue takes the next poll. |
| PaymentPolling.ConfirmingIsPolled | crm-backend/src/jobs/workers/transaction-confirmation.worker.ts:168-180 | After any run a CONFIRMING payment has a poll waiting if and only if no call of the run was one of three: an accepted transfer whose first poll was not queued, the last attempt of a poll that throws before it writes a status, and, if the queue drops the id of an active job, any poll that comes too early. |
| PaymentPolling.StoppedForEver | crm-backend/src/jobs/workers/transaction-confirmation.worker.ts:168-180 | A payment whose polling has stopped is never polled again and stays CONFIRMING, whatever runs afterwards. |
| PaymentPolling.PollWaits | crm-backend/src/jobs/workers/transaction-confirmation.worker.ts:48-147 | A poll that reschedules itself saw no receipt within 300 blocks, or one with fewer confirmations than the target. |
| PaymentCases.CreateIsIdempotent | crm-backend/src/modules/payments/payments.service.ts:61-94 | Once a payment exists, asking again with its key, after any run and whatever the other arguments, changes nothing: its tenant gets the same payment, any other a conflict. |
| PaymentCases.LostCommitBooksTwice | crm-backend/src/modules/ledger/ledger.service.ts:109-142 | A concrete run in which the ledger commits, the outer commit is lost, the retried poll settles, and the journal holds the settlement twice. |
| PaymentCases.SecondRefundBreaksTrail | crm-backend/src/modules/payments/payments.service.ts:263-283 | A concrete run with two refunds: the second is accepted and the trail is no longer a path. |
| PaymentCases.UnderpaymentLeavesNoEvent | crm-backend/src/jobs/workers/blockchain-events.worker.ts:93-100 | A concrete underpaid transfer: the payment is FAILED and has no event. |
| PaymentCases.BlockZeroIsPolledForEver | crm-backend/src/jobs/workers/transaction-confirmation.worker.ts:90-115 | A run from the empty system after which a payment detected in block 0 is CONFIRMING and, after any number of polls at any heights without a receipt, the next one reschedules itself again. |
| PaymentCases.DroppedPollIsTheLast | crm-backend/src/jobs/workers/transaction-confirmation.worker.ts:168-180 | A run on a queue that drops the id of an active job: the first poll, a block too early, is the last, and in every continuation the payment stays CONFIRMING without another. |
| PaymentCases.SettlesExactlyWhen | crm-backend/src/modules/ledger/ledger.repository.ts:33-53 | Without faults a settlement succeeds if and only if the Asset account of tenant and chain exists or the wallet has no account yet. |
| PaymentServices.PaymentStore.CreatePaymentIntent | crm-backend/src/modules/payments/payments.service.ts:61-94 | The whole new state and result of intent creation, refusals included. |
| PaymentServices.PaymentStore.MarkDetected | crm-backend/src/modules/payments/payments.service.ts:102-150 | The state after a detected transfer, including the silent returns and the refused duplicate hash. |
| PaymentServices.PaymentStore.Settle | crm-backend/src/modules/payments/payments.service.ts:182-227 | Status, event and ledger of a settlement, and what each fault leaves behind. |
| PaymentServices.PaymentStore.ConfirmationUpdate | crm-backend/src/modules/payments/payments.service.ts:156-176 | Below the threshold only the confirmations change; from it on the payment is settled. |
| PaymentServices.PaymentStore.FindExpiredPending | crm-backend/src/modules/payments/payments.repository.ts:72-77 | At most 200 distinct stale PENDING payments, and every one of them when there are fewer; SweepExactly says in plain numbers which ones those are. |
| PaymentServices.PaymentStore.FindPendingByAddress | crm-backend/src/modules/payments/payments.repository.ts:50-58 | A PENDING payment of the chain whose address matches without regard to case, or none when there is none. |
| PaymentServices.PaymentStore.ExpireStalePendingPayments | crm-backend/src/modules/payments/payments.service.ts:233-251 | The loop leaves each payment of the batch EXPIRED with one event, but for those whose status or whose event could not be written; nothing else changes. SweepExactly says when it comes. |
| PaymentServices.PaymentStore.RefundPayment | crm-backend/src/modules/payments/payments.service.ts:263-306 | The state and result of a refund, including both refusals. |
| PaymentServices.PaymentStore.ProcessTransfer | crm-backend/src/jobs/workers/blockchain-events.worker.ts:42-132 | The state after a transfer event: no match, underpaid, duplicate hash, detected, and how far it got when the worker stopped behind the transaction row or before the queue; RowExactly and JobExactly put it in plain numbers. |
| PaymentServices.PaymentStore.Fail | crm-backend/src/jobs/workers/transaction-confirmation.worker.ts:149-166 | Transaction row, payment and event of a failed confirmation, as far as they were written when the second or the third write throws. |
| PaymentServices.PaymentStore.Abandon | crm-backend/src/jobs/workers/transaction-confirmation.worker.ts:88-115 | The state after a poll that gives the payment up, with the job finished, or kept for another attempt when a write threw. |
| PaymentServices.PaymentStore.ProcessPoll | crm-backend/src/jobs/workers/transaction-confirmation.worker.ts:70-147 | The state after a poll in each of its branches and for each fault, and how it ended; RowExactly, JobExactly and TxExactly put it in plain numbers. |
| PaymentInterleaving.BookedAtMostOnce | crm-backend/src/jobs/workers/transaction-confirmation.worker.ts:168-180 | With every call split at its reads and writes, the ledger's commit apart from the outer one, any call throwing anywhere, and any interleaving, stale writes included: the ledger entries of a payment are committed at most once more than an outer commit was lost, as long as a finished job id is not given out again. |
| PaymentInterleaving.OneJobExactly | crm-backend/src/jobs/workers/blockchain-events.worker.ts:112-130 | Any step keeps one poll active at most and the bookings within one of the lost ones, if and only if it does not give out again the job id of a payment that has been booked. |
| PaymentInterleaving.BookedOnceUnlessForgotten | crm-backend/src/jobs/workers/blockchain-events.worker.ts:112-130 | While no step does that, the entries are committed at most once more than an outer commit was lost, whatever the queue forgets otherwise. |
| PaymentInterleaving.ExactlyOnceExactly | crm-backend/src/modules/payments/payments.service.ts:156-211 | Over every run, stale writes included, once no settlement waits for its outer commit: the entries exist once exactly when the payment is settled, and not at all otherwise, if and only if the lost outer commits and what the steps of the run added to the bookings come to nothing; even if finished jobs are forgotten. |
| PaymentInterleaving.AccountedExactly | crm-backend/src/modules/payments/payments.service.ts:156-251 | Any step, stale or not, keeps the bookings those that are lost, pending or of a settled payment, if and only if it does not give a settled payment another status, settle a settled one, or refund one that is not settled. |
| PaymentInterleaving.BookedExactly | crm-backend/src/modules/payments/payments.service.ts:156-211 | Over every run the bookings are the lost ones, the pending one, that of a settled payment, and one for each of those steps, less one for a refund of a payment that is not settled. |
| PaymentInterleaving.ExactlyOnceWithoutHarm | crm-backend/src/modules/payments/payments.service.ts:156-211 | While no step does so, booked once exactly when settled if and only if no outer commit was lost; stale writes that harm nothing are allowed. |
| PaymentInterleaving.TrailWithoutHarm | crm-backend/src/modules/payments/payments.service.ts:233-251 | While no stale write spoils the trail, the events form a path to the payment's status, once none is still to come, if and only if no step was a failure for underpayment, a refund of a refunded payment, or an exception between the status and the event of an expiry or a failure. |
| PaymentInterleaving.UnbrokenExactly | crm-backend/src/modules/payments/payments.service.ts:233-283 | Any step, stale or not, keeps the events a path to the status, up to one still to come, if and only if it is none of those steps and no stale write other than a second failure for underpayment. |
| PaymentInterleaving.BeginsExactly | crm-backend/src/modules/payments/payments.service.ts:233-283 | A deposit and a sweep begin on a PENDING payment and no other, a refund on a COMPLETED or REFUNDED one and no other. |
| PaymentInterleaving.ReadsBeforeItWrites | crm-backend/src/modules/payments/payments.service.ts:102-211 | A reading access changes nothing of the payment and leads to the write it is for if and only if the status read is the one that write needs. |
| PaymentInterleaving.LostCommitBooksAgain | crm-backend/src/modules/ledger/ledger.service.ts:109-142 | The bound is reached: one lost outer commit and two bookings, without any stale write and with the job id remembered. |
| PaymentInterleaving.StaleSweepHidesSettlement | crm-backend/src/modules/payments/payments.service.ts:233-251 | An interleaving without a lost commit in which a sweep that read PENDING expires the payment after it was booked and settled. |
| PaymentInterleaving.ForgottenJobBooksTwice | crm-backend/src/jobs/workers/blockchain-events.worker.ts:112-130 | An interleaving of two deposits without a lost commit that books a payment twice once the queue has forgotten the first job. |
| RefreshClient.SingleFlight | crm-frontend/src/lib/api/client.ts:77-86 | After any interleaving of answers and continuations, two refreshes of the interceptor that are in flight are the same one, and the flag is set. |
| RefreshClient.RefreshNeverParked | crm-frontend/src/lib/api/client.ts:47-75 | A refresh call is never parked and never waits for a refresh. |
| RefreshClient.ParkingsReleasedOnce | crm-frontend/src/lib/api/client.ts:14-30 | No request stays parked while isRefreshing is false; every parking is released exactly once, in the order of parking. |
| RefreshClient.NoDeadlock | crm-frontend/src/lib/api/client.ts:77-111 | While a refresh is on, its leader waits for a call that is in flight or answered; however it is answered, the leader's next turn releases every waiter and ends the refresh. |
| RefreshClient.BoundedEffort | crm-frontend/src/lib/api/client.ts:54-80 | The interceptor starts at most one refresh per ordinary request, and parks no request more often than that. |
| RefreshHistory.FulfilledExactly | crm-frontend/src/lib/api/client.ts:41-47 | After any run a request is fulfilled if and only if one of the answers to it was a success. |
| RefreshHistory.LoggedOutExactly | crm-frontend/src/lib/api/client.ts:60-111 | After any run the user is logged out if and only if a refresh call was answered with a 401, or a request that had started a refresh went on without a success and a token. |
| RefreshHistory.WaitersGoOn | crm-frontend/src/lib/api/client.ts:82-111 | When that request goes on, it and every parked one are sent again if the refresh brought a token and are rejected otherwise; no other request is touched. |
| RefreshHistory.AnsweredExactly | crm-frontend/src/lib/api/client.ts:47-80 | What an answer makes of a request, by its own past: fulfilled, rejected, parked behind a refresh that is on, or starting one. |
| RefreshClient.ApiClient.ProcessQueue | crm-frontend/src/lib/api/client.ts:21-30 | The loop settles every waiter in queue order and empties the queue. |
| RefreshClient.ApiClient.Intercept | crm-frontend/src/lib/api/client.ts:47-80 | The client's whole state after a response, for each branch before the first await. |
| RefreshClient.ApiClient.AfterRefresh | crm-frontend/src/lib/api/client.ts:82-111 | The client's whole state after the refresh has answered, with the flag reset on both paths; WaitersGoOn and LoggedOutExactly tell it by the answers. |
| RefreshSessions.OneSuccessorPerToken | crm-backend/src/modules/auth/auth.service.ts:141-161 | Under any interleaving of find, delete and create, two refreshes that got a successor for one token are the same refresh. |
| RefreshSessions.SessionsWithinLogins | crm-backend/src/modules/auth/auth.service.ts:222-252 | A user's live sessions never exceed the logins, under any interleaving. |
| RefreshSessions.BudgetGrowsByLogins | crm-backend/src/modules/auth/auth.repository.ts:33-67 | From any reachable state, the sessions of a user and those about to be created grow by the user's later logins at most. |
| RefreshSessions.SurvivorsOfRevocation | crm-backend/src/modules/auth/auth.repository.ts:63-67 | After all rows of a user are deleted, no more sessions arise than refreshes caught between delete and create, plus later logins. |
| RefreshSessions.SurvivorsExactly | crm-backend/src/modules/auth/auth.service.ts:163-169 | From every reachable state and for every n: whatever runs after the rows of a user are deleted, logins apart, at most n sessions of the user are live, if and only if at most n refreshes were caught between delete and create. |
| RefreshSessions.LogoutEndsAllExactly | crm-backend/src/modules/auth/auth.service.ts:163-169 | A logout leaves the user without a session in every continuation without a login, if and only if no refresh of the user is caught there. |
| RefreshSessions.RefreshOutlivesLogout | crm-backend/src/modules/auth/auth.service.ts:163-169 | A concrete interleaving that reaches that bound: a refresh caught there outlives a logout. |
| RefreshSessions.SameSecondTokensRepeat | crm-backend/src/modules/auth/auth.service.ts:228-240 | If the token signed is not fresh, one token has two successors. |
| RefreshSessions.TakenOnceExactly | crm-backend/src/modules/auth/auth.service.ts:228-240 | Any step, its token fresh or not, keeps every consumed token consumed once and not live, if and only if it does not sign a token again that a refresh has consumed. |
| RefreshSessions.OneSuccessorUnlessRevived | crm-backend/src/modules/auth/auth.repository.ts:51-61 | Over any run in which no step does that, two refreshes that got a successor for one token are the same refresh. |
| RefreshSessions.LoneRefreshIsOneRequest | crm-backend/src/modules/auth/auth.service.ts:141-161 | A refresh that runs alone from begin to end does what the request-level model says in one step. |
| RefreshSessions.PermanentRevocation | crm-backend/src/modules/auth/auth.service.ts:141-220 | At request granularity a token signed for a user before a logout, replay or password reset never refreshes again, whoever presents it and whatever is served in between. |
| RefreshSessions.ResetWorksOnce | crm-backend/src/modules/auth/auth.repository.ts:122-138 | A reset token that was used matches no user later, until it is sent out again. |
| RefreshSessions.ResetExactly | crm-backend/src/modules/auth/auth.repository.ts:122-138 | After any calls a reset is accepted if and only if its token is the one last sent to the user, less than 3,600,000 ms ago, and not used since; it then ends all sessions of the user, and otherwise changes nothing. |
| RefreshSessions.SignedTokenWorks | crm-backend/src/modules/auth/auth.service.ts:141-161 | A token that was just signed at a login refreshes, for the user it was signed for. |
| RefreshSessions.AuthService.ConsumeRefreshSession | crm-backend/src/modules/auth/auth.repository.ts:51-61 | The owner of the row, and the table without it. |
| RefreshSessions.AuthService.GenerateTokens | crm-backend/src/modules/auth/auth.service.ts:222-252 | A new session row exactly when the token's hash is not taken. |
| RefreshSessions.AuthService.Refresh | crm-backend/src/modules/auth/auth.service.ts:141-161 | The new session table and the successor, for a live token, a replayed one and a mismatched user. |
| RefreshSessions.AuthService.Reset | crm-backend/src/modules/auth/auth.service.ts:203-220 | A matching reset clears the reset token and all sessions; any other changes nothing. |
| TenantScope.SpreadPicks | crm-backend/src/core/database/prisma.service.ts:70-79 | A row passes the rewritten filter if and only if it is the tenant's and passes the caller's filter without its top-level tests of tenantId, for any nesting and with SQL's third truth value. |
| TenantScope.RestPicks | crm-backend/src/core/database/prisma.service.ts:70-79 | On the tenant's rows, the dropped tests decide nothing but whether they let the tenant through. |
| TenantIsolation.ReadsTheSlice | crm-backend/src/core/database/prisma.service.ts:70-72 | The rewritten filter selects what the caller's own selects on the tenant's slice, in order, if and only if the dropped tests accept the tenant or nothing would be found anyway. |
| TenantIsolation.MeansTheSlice | crm-backend/src/core/database/prisma.service.ts:70-82 | Every rewritten operation answers as the caller's operation does on a table holding the tenant's rows only, leaves that table's result as the tenant's new rows, and leaves all other rows alone. |
| TenantIsolation.OwnStep | crm-backend/src/core/database/prisma.service.ts:70-82 | Running a rewritten operation commutes with taking the tenant's slice, and does not change the others' rows. |
| TenantIsolation.ForeignWrite | crm-backend/src/core/database/prisma.service.ts:77-79 | When updateMany's data names another tenant, the picked rows are handed over: the others gain exactly that many rows, so they are unchanged if and only if nothing was picked. |
| TenantIsolation.ForeignUpdate | crm-backend/src/core/database/prisma.service.ts:77-79 | A single update whose data names another tenant hands the found row over: the others gain exactly one row, and are unchanged if and only if nothing was found. |
| TenantIsolation.UpsertStaysWhen | crm-backend/src/core/database/prisma.service.ts:22-27 | An upsert leaves the others' rows alone if and only if it finds nothing and creates a row of the tenant, or it finds a row of the tenant and does not give it away, or it writes to a foreign row what that holds already. |
| TenantIsolation.FindUniqueStaysWhen | crm-backend/src/core/database/prisma.service.ts:22-26 | A findUnique answers as on the tenant's rows alone if and only if it finds nothing or a row of the tenant. |
| TenantIsolation.AsIfAlone | crm-backend/src/core/database/prisma.service.ts:56-82 | Any run of such operations by many tenants on any models but Tenant and BillingInfo is, to each tenant, the run of its own requests on a database of its own rows: the same answers and the same final rows. |
| TenantIsolation.NoInterference | crm-backend/src/core/database/prisma.service.ts:56-82 | On those models, what a tenant is answered does not depend on other tenants' rows or requests. |
| TenantIsolation.UnscopedRunsAsAsked | crm-backend/src/core/database/prisma.service.ts:19-68 | On Tenant and BillingInfo, and in requests without a tenant, the caller's own operation runs on the whole table. |
| TenantIsolation.UpsertReachesAcross | crm-backend/src/core/database/prisma.service.ts:22-27 | An upsert by the id of another tenant's row, which the rewriter does not list, changes that row. |
| IsoWeek.IsoWeekNumber | crm-backend/src/shared/utils/date.utils.ts:88-94 | For every date outside the years 0 to 100 the result is the week number of section 2.2.10 of ISO 8601:2004. |
| IsoWeek.WeekOfIsWeek | crm-backend/src/shared/utils/date.utils.ts:88-94 | The week found through the Thursday is the one counted from the week that holds the year's first Thursday. |
| IsoWeek.OneWeek | crm-backend/src/shared/utils/date.utils.ts:87-94 | The standard gives a day one week year and one number. |
| IsoWeek.StandardWeeks | crm-backend/src/shared/utils/date.utils.ts:87-94 | The number lies in 1..53, is the same from Monday to Sunday, and from one Monday to the next grows by one or restarts at 1. |
| IsoWeek.RightOutsideTheFirstCentury | crm-backend/src/shared/utils/date.utils.ts:88-94 | The code is right for every date before year 0 or from 4 January 100 on. |
| IsoWeek.FirstCenturyIsTheTwentieth | crm-backend/src/shared/utils/date.utils.ts:89-92 | For the years 0 to 99, which Date.UTC takes for 1900 to 1999, the result is the number of the same date 1900 years later. |
| IsoWeek.RightInTheFirstCentury | crm-backend/src/shared/utils/date.utils.ts:89-92 | In the years 1 to 99, away from the turn of the year, the result is right if and only if the day is a Sunday exactly when the year begins on a Thursday. |
| IsoWeekExact.RightExactly | crm-backend/src/shared/utils/date.utils.ts:88-94 | For every date of the calendar, the result is right if and only if the date lies before year 0 or after 3 January 100, or in the years 1 to 99, is a Sunday exactly when the year begins on a Thursday, and lies neither before Sunday in the last week of a preceding year that began on a Thursday nor in the first week of a next year that begins on one; or lies in year 0 and is no Sunday, nor a Saturday before March. |
| IsoWeek.YearsNumberedRight | crm-backend/src/shared/utils/date.utils.ts:88-94 | A year is numbered right on all its dates if and only if it is not one of 0 to 100. |
| IsoWeek.NewYearOfOneHundred | crm-backend/src/shared/utils/date.utils.ts:92-93 | 1 January 100 belongs to week 53 and is given -99085. |
| IsoWeek.FirstThursdayIsFirst | crm-backend/src/shared/utils/date.utils.ts:87-94 | The Thursday week 1 is counted from is no later than any other Thursday of the year. |
| IsoWeek.YearOf | crm-backend/src/shared/utils/date.utils.ts:92 | The year a day number falls in. |
| Deals.ClosedDealsStayClosed | crm-backend/src/modules/deals/deals.service.ts:204-231 | In any run a deal that is won or lost never opens again, even when it is moved back to an ordinary stage. |
| Deals.HistoryStep | crm-backend/src/modules/deals/deals.service.ts:194-245 | One step leaves a deal's stage history a chain ending at its stage if and only if it was one (or the deal is new) and the step is no conversion, no creation whose second write failed, and no move by a call that saw another stage. |
| Deals.HistoryFrom | crm-backend/src/modules/deals/deals.service.ts:135-165 | Over any run a deal's history is such a chain exactly when no step of the run broke it; what is broken stays broken. |
| Deals.MovesFitStep | crm-backend/src/modules/deals/deals.service.ts:233-243 | Whatever happens, the last move of a deal leads to the stage it is on. |
| Deals.AnswersExactly | crm-backend/src/modules/deals/deals.service.ts:135-245 | What creating, moving, changing and converting answer: the deal as it now is, or the one error that applies. |
| Deals.RemovedExactly | crm-backend/src/modules/pipelines/pipelines.service.ts:123-130 | A stage is deleted if and only if no deal is on it and no move ever led to it, as the foreign keys have it; the other stages stay. |
| DealViews.PlacementStep | crm-backend/src/modules/leads/leads.service.ts:199-211 | After any step a deal sits on a stage of its own pipeline exactly when it did before or was just moved; a new deal exactly when the stage named for it belongs to the pipeline named for it. |
| DealViews.DealsStayInTheirPipeline | crm-backend/src/modules/deals/deals.service.ts:135-143 | In any run whose conversions name matching stage and pipeline, every deal stays on a stage of its own pipeline. |
| DealViews.ConversionMisplaces | crm-backend/src/modules/leads/leads.service.ts:199-211 | A run from the empty board whose conversion puts a deal on another pipeline's stage. |
| DealViews.ColumnsPartition | crm-backend/src/modules/deals/deals.service.ts:62-91 | The cards of the Kanban board are open deals of the pipeline, none twice; none is missing if and only if each of them sits on one of the pipeline's stages. |
| DealViews.ColumnAgainstLine | crm-backend/src/modules/deals/deals.service.ts:82-112 | A column holds at most the deals the forecast counts on its stage, and as many if and only if no open deal of another pipeline sits there. |
| DealViews.BoardAndForecastAgree | crm-backend/src/modules/deals/deals.service.ts:62-126 | When every deal is placed, board and forecast agree on each stage, deal by deal, and the pipeline total is the value of all its open deals. |
| DealViews.GetForecast | crm-backend/src/modules/deals/deals.service.ts:96-133 | The two running totals equal sums over the deals, plain and weighted by the probability of each deal's stage, and each line is that of its stage. |
| DealViews.ForecastWithinPipeline | crm-backend/src/modules/deals/deals.service.ts:113-133 | After any run without a negative value or a probability outside 0..1, the forecast lies between nothing and the pipeline total; ForecastMargin gives the exact condition. |
| ForecastMargin.ForecastExactly | crm-backend/src/modules/deals/deals.service.ts:96-133 | After any run whatever, the forecast is at most the pipeline total if and only if the gains of its steps add up to no less than nothing; what a step gains is read off the board before it: value times the chance of losing it for a new deal, the difference for a changed or moved one, the change of probability times the open value for an edited stage. |
| ForecastMargin.StepStaysWithin | crm-backend/src/modules/deals/deals.service.ts:113-133 | From any reachable board, any step leaves the forecast within the pipeline if and only if it takes no more from the margin between them than there is. |
| ForecastMargin.ConversionStaysWithin | crm-backend/src/modules/leads/leads.service.ts:199-211 | On any board, a conversion leaves the forecast of a pipeline within its total if and only if minus its value times one less the probability of its stage is at most the margin before it; a stage elsewhere changes nothing. |
| ForecastMargin.LineStaysWithin | crm-backend/src/modules/deals/deals.service.ts:116-130 | One line of the forecast is at most its total if and only if the total is not negative and the probability at most 1, or the other way round. |
| DealViews.NegativeConversion | crm-backend/src/modules/leads/leads.service.ts:199-211 | A run from the empty board in which a conversion with a negative value, which its DTO allows, makes the forecast exceed the pipeline. |
| DealViews.DealsService.CreateDeal | crm-backend/src/modules/deals/deals.service.ts:135-165 | The whole new board and the result, when the stage is not offered and when the history write fails. |
| DealViews.DealsService.MoveDeal | crm-backend/src/modules/deals/deals.service.ts:194-245 | The whole new board and the result: stage, status won or lost, and the history row. |
| DealViews.DealsService.UpdateDeal | crm-backend/src/modules/deals/deals.service.ts:185-188 | Value changed, stage and pipeline untouched. |
| UnreadCache.CacheAgreesWithTable | crm-backend/src/modules/notifications/notifications.service.ts:21-136 | After any calls and expiries, unless a deletion failed after its decrement, a counter that is there is the user's number of unread rows, never negative, and getUnreadCount answers that number in any case. |
| UnreadCache.CallKeepsCount | crm-backend/src/modules/notifications/notifications.service.ts:114-135 | A call keeps every counter right if and only if it is not a deletion of an unread row that fails after the counter went down. |
| NotificationRows.RowsExactly | crm-backend/src/modules/notifications/notifications.service.ts:37-135 | After any calls a notification is there if and only if it was sent and not deleted by its user, and is read if and only if its user read it, alone or with all others; numbers are given in the order of sending. |
| NotificationRows.UnreadExactly | crm-backend/src/modules/notifications/notifications.service.ts:21-35 | The unread notifications of a user after any calls are those sent to it and neither read nor deleted. |
| NotificationRows.NeverNegative | crm-backend/src/modules/notifications/notifications.service.ts:37-64 | A counter is never negative, whatever fails. |
| NotificationRows.AnswersExactly | crm-backend/src/modules/notifications/notifications.service.ts:37-135 | What reading and deleting answer, by the notification's own past: not found, forbidden, failed or done. |
| NotificationRows.NumbersExactly | crm-backend/src/modules/notifications/notifications.service.ts:66-75 | A new notification gets the next number; reading all answers how many were unread and leaves none. |
| NotificationRows.CountIsKept | crm-backend/src/modules/notifications/notifications.service.ts:21-35 | Asking for the count leaves the answer in the cache for the next reader and changes no notification. |
| UnreadCache.NotificationsService.CountUnreadOf | crm-backend/src/modules/notifications/notifications.service.ts:21-35 | The cached number, or the counted one, which is then cached. |
| UnreadCache.NotificationsService.ReadOne | crm-backend/src/modules/notifications/notifications.service.ts:37-64 | Row and counter after a read, and the three ways it changes nothing. |
| UnreadCache.NotificationsService.ReadAll | crm-backend/src/modules/notifications/notifications.service.ts:66-75 | All rows of the user read, the counter at 0. |
| UnreadCache.NotificationsService.Create | crm-backend/src/jobs/workers/notification.worker.ts:40-77 | One more unread row, and one more in a counter that is there. |
| UnreadCache.NotificationsService.Remove | crm-backend/src/modules/notifications/notifications.service.ts:114-135 | Row and counter after a deletion, also when the row write fails. |
| UnreadInterleaving.IdleCountersAreCounts | crm-backend/src/modules/notifications/notifications.service.ts:21-136 | With the calls split at their reads and writes and throwing anywhere: as long as no two calls of one user overlap, no counter expires between a look and its change, and no call is cut off between its change of the table and that of a counter that is there, the counter of every idle user is the count, whatever others do. |
| UnreadInterleaving.SoundExactly | crm-backend/src/modules/notifications/notifications.service.ts:21-136 | From any state with right counters and no overlap, a step leads to another one if and only if it neither starts a call of a user with one in flight, nor expires a counter between a look and its change, nor cuts a call off between table and counter. |
| UnreadBalance.BalanceExactly | crm-backend/src/modules/notifications/notifications.service.ts:21-136 | With calls of one user overlapping in any way: a step keeps counter plus what the calls in flight owe it equal to the unread rows, if and only if it is none of those named by a guard on the state before it: a stale count stored, a row read or deleted that no longer counts as unread or was not subtracted, a subtraction skipped, a change of an expired counter, or an exception that leaves a debt. |
| UnreadBalance.IdleCounterIsCount | crm-backend/src/modules/notifications/notifications.service.ts:21-136 | However the calls of a user overlap, while no step of the run is one of those, the counter is the count whenever none of the user's calls is in flight. |
| UnreadBalance.ApartNothingUpsets | crm-backend/src/modules/notifications/notifications.service.ts:21-136 | Calls of one user that do not overlap and are not cut off are never one of those steps. |
| UnreadInterleaving.ThrowKeepsSound | crm-backend/src/modules/notifications/notifications.service.ts:37-135 | From any state with right counters, a call that throws leaves them right if and only if it is not cut off so: before its change of a counter that is there, before it stores a count the counter does not have yet, or before it deletes the unread row it has already subtracted. |
| UnreadInterleaving.LoneCallIsCall | crm-backend/src/modules/notifications/notifications.service.ts:21-136 | Each of the five calls, access by access with nothing in between, does what the whole call does. |
| UnreadInterleaving.LateCountHidesNotification | crm-backend/src/modules/notifications/notifications.service.ts:21-35 | An interleaving of a count and a notification of one user that leaves 0 in the counter and one unread row. |
| UnreadInterleaving.LateIncrementStartsOver | crm-backend/src/jobs/workers/notification.worker.ts:70-75 | A run from the empty table in which a counter expires between EXISTS and INCR: it starts again at 1 beside two unread rows, and no call is left that would correct it. |
| SearchKeys.KeyTextNamesSearch | crm-backend/src/modules/ai/vector-search.service.ts:76-80 | Two searches have the same text to hash if and only if query, limit and threshold are equal and the same types are asked for in any order, however many colons the query holds. |
| SearchKeys.SearchKeyNamesTenant | crm-backend/src/core/cache/cache-keys.ts:34-35 | Two search keys are equal if and only if tenant and hash are. |
| SearchKeys.RagKeysStayApart | crm-backend/src/modules/ai/rag.service.ts:112-117 | A RAG key equals a plain search key exactly when the other tenant's id is the first one's followed by ":rag" and the hashes agree; never for ids without colons. |
| SearchKeys.Sorted | crm-backend/src/modules/ai/vector-search.service.ts:78 | The same types, in the order of their names. |
| Texts.DecimalReads | crm-backend/src/modules/ai/rag.service.ts:113 | The decimal text of a number reads back as that number. |
| Workflows.EventIsAccounted | crm-backend/src/modules/automation/automation.service.ts:104-200 | For any answers and exceptions of evaluator, executor and database, the creation of an execution included: the executions created for a workflow are its runs, its errors and its skips, and one more exactly when the exception handler itself throws in its turn; exactly one is left RUNNING if that turn stranded it, and none otherwise; the event throws exactly when a handler throws or an execution cannot be created. |
| Workflows.TurnIsAccounted | crm-backend/src/modules/automation/automation.service.ts:128-198 | One turn is a run, an error or a skip unless its handler throws; a run holds the recorded results and is SUCCESS exactly when they all are; the turn ends the event with an exception exactly when something in the try block throws and a write of the handler does. |
| Workflows.ExecutionExactly | crm-backend/src/modules/automation/automation.service.ts:128-198 | What the row of an execution holds in the end, and what is counted, by what threw: SUCCESS or FAILED by the recorded results, SKIPPED, or FAILED with its error. |
| Workflows.StrandedExactly | crm-backend/src/modules/automation/automation.service.ts:128-198 | An execution is left RUNNING if and only if the evaluator, a reached action, or the write of SKIPPED or of the results throws, and the write of FAILED throws too. |
| Workflows.AnExecutionIsStranded | crm-backend/src/modules/automation/automation.service.ts:181-191 | A concrete event that leaves its execution RUNNING, counted neither as a run nor as an error. |
| Workflows.RecordedIsThePrefix | crm-backend/src/modules/automation/automation.service.ts:149-157 | The recorded results are exactly the outcomes up to and including the first failing stopOnFailure action; there are none exactly when a call throws before that. |
| Workflows.AutomationService.ExecuteActions | crm-backend/src/modules/automation/automation.service.ts:149-157 | The loop with its break returns those results, or none when the executor throws. |
| Workflows.AutomationService.ProcessWorkflow | crm-backend/src/modules/automation/automation.service.ts:118-198 | The execution row and both counters after one workflow, for every fault. |
| Workflows.AutomationService.ProcessEvent | crm-backend/src/modules/automation/automation.service.ts:104-200 | Executions and counters after the whole event, and whether it threw, when the workflows cannot be found or an execution cannot be created too. |
| BatchScoring.LeadScoringService.BatchRecomputeForTenant | crm-backend/src/modules/analytics/lead-scoring.service.ts:77-108 | For any table the loop ends, having scored every lead of the tenant exactly once, in id order, and no other; if the scoring of some leads throws, it ends with the page of the first of them, having scored the others up to the end of that page. |
| BatchScoring.NextPage | crm-backend/src/modules/analytics/lead-scoring.service.ts:83-91 | The page behind the first k leads is the next fifty of them. |
| BatchScoring.Ordered | crm-backend/src/modules/analytics/lead-scoring.service.ts:83-91 | The ids of the tenant's leads, each once, increasing. |
| Pagination.PagesPartition | crm-backend/src/shared/utils/pagination.utils.ts:21-50 | For any list and positive limit the pages 1 to totalPages make up the list; a page with a successor is full, the last is not empty, a page past it is. |
| Pagination.NextPageExists | crm-backend/src/shared/utils/pagination.utils.ts:55-64 | hasNextPage holds exactly when the page is below totalPages. |
| Pagination.TotalPages | crm-backend/src/shared/utils/pagination.utils.ts:55-57 | The least number of pages that holds all items. |
| ContextWindow.BuildContextWindow | crm-backend/src/modules/ai/rag.service.ts:241-257 | The text is the joined first n blocks, and any number of blocks fits into 12000 characters, separators included, exactly when it is at most n. |
| ContextWindow.BlockShows | crm-backend/src/modules/ai/rag.service.ts:241-257 | A block ends with the first 1500 characters of the content and begins with its number, the type and the id. |

## Left out

- Ledger.FeeBounds: amounts are whole micro-USDC, so the 20 significant digits of the decimal library and amounts with more than six decimals are not modelled.
- PaymentPolling.PollingTerminates: counts polls, not time; the delays between them do not matter to it and are not modelled.
- PaymentInterleaving.BookedAtMostOnce: one payment at a time; the row lock that the outer transaction of a settlement holds is not modelled, so there are more interleavings than the database allows, and a job whose worker stalls is not started a second time beside the first.
- PaymentServices.PaymentStore.ExpireStalePendingPayments: the payments of a batch are expired one after the other, which gives what their concurrent writes give, since they touch different payments.
- RefreshClient.NoDeadlock: an unanswered refresh call is not timed out; the model says that the leader waits for a call that can still be answered.
- RefreshSessions.OneSuccessorPerToken: supposes that signed tokens are fresh and that SHA-256 does not collide; without freshness there is a counterexample. The expiry of a session row is checked by the token strategy and is not part of this model.
- TenantIsolation.AsIfAlone: relations in filters, ordering, selections, unique constraints and generated columns are not modelled; rows keep the order of the table, and an update of one row takes the first that matches.
- TenantIsolation.MeansTheSlice: `createMany` is given a list, and `groupBy` is not told from an aggregate.
- IsoWeek.IsoWeekNumber: years are unbounded; the range of the JavaScript date is not modelled, nor the time zone that turns an instant into a calendar date.
- DealViews.GetForecast: values and probabilities are exact reals; the conversion of decimals to floating point is not modelled, nor the order of stages by position.
- Deals.HistoryFrom: deleting a deal, which takes its history along, is not a step; a deal's status set by anything but a move is not modelled.
- UnreadCache.CacheAgreesWithTable: a cache that cannot be reached is not modelled.
- SearchKeys.KeyTextNamesSearch: says when the text before hashing agrees; the hash and its cut to 16 digits are not modelled, a threshold is given as its text, and the sort that `search` does in the caller's own array is a value here.
- Workflows.EventIsAccounted: the condition evaluator and the action executor are an oracle, and an exception is only an exception: its message is not modelled; what actions do is not part of this model.
- BatchScoring.LeadScoringService.BatchRecomputeForTenant: the table does not change during the loop, ids are numbers in the order of the strings and none is empty, a page can always be read, and the score itself is not modelled.
- ContextWindow.BuildContextWindow: characters are counted as UTF-16 units are in the source, the upper-casing of the type and the three decimals of the similarity are given as text.
- Parsing of decimal amounts, RPC calls, web sockets, e-mail, webhooks and logging: inputs or effects outside the model.
- Billing, RBAC, templates, the other date helpers and all user-interface code: they would only add easy members.
